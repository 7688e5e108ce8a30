/**
 * The encoding shared by the builder and the playback handler: the key an
 * export allocates, the attribute value of each step, the CSS rule that
 * selects it, and the handler's decision of what value comes next.
 */
module Keys {
  import opened Strings

  const Separator := "__"
  const StepSeparator := "--"

  /** `taro-h5-poly-fill/{id}/create-animation`: the namespace of one instance. */
  function Namespace(id: nat): string {
    "taro-h5-poly-fill/" + NatToString(id) + "/create-animation"
  }

  /** The key the `count`-th export of instance `id` returns. */
  function Key(id: nat, count: nat): string {
    Namespace(id) + Separator + NatToString(count)
  }

  /** The attribute value that selects step `i` of the animation `key`. */
  function StepValue(key: string, i: nat): string {
    if i == 0 then key else key + StepSeparator + NatToString(i)
  }

  /** Elements whose `animation` or `data-animation` attribute equals `value`. */
  function Selector(value: string): string {
    "[animation=\"" + value + "\"], [data-animation=\"" + value + "\"]"
  }

  /** The CSS rule of step `i` of the animation `key`, with body `step`. */
  function StepRule(key: string, i: nat, step: string): string {
    Selector(StepValue(key, i)) + " { " + step + " }"
  }

  /** The rule of every step, in step order. */
  function StepRules(key: string, steps: seq<string>): (r: seq<string>)
    ensures |r| == |steps|
    ensures forall i :: 0 <= i < |steps| ==> r[i] == StepRule(key, i, steps[i])
  {
    seq(|steps|, i requires 0 <= i < |steps| => StepRule(key, i, steps[i]))
  }

  /** The first `k` of `rules`, each inserted in turn at the front of a sheet. */
  function FrontInserted(rules: seq<string>, k: nat): seq<string>
    requires k <= |rules|
  {
    if k == 0 then [] else [rules[k - 1]] + FrontInserted(rules, k - 1)
  }

  /** Front insertion reverses: after k insertions, rule i sits at position k-1-i. */
  lemma {:induction false} FrontInsertedAt(rules: seq<string>, k: nat)
    requires k <= |rules|
    ensures |FrontInserted(rules, k)| == k
    ensures forall i :: 0 <= i < k ==> FrontInserted(rules, k)[k - 1 - i] == rules[i]
  {
    if k > 0 {
      FrontInsertedAt(rules, k - 1);
    }
  }

  /**
   * The sheet prefix after the rules of the first `k` steps were each
   * inserted at the front: the rule of step k-1 comes first.
   */
  function EmittedRules(key: string, steps: seq<string>, k: nat): seq<string>
    requires k <= |steps|
  {
    FrontInserted(StepRules(key, steps), k)
  }

  /** Exactly one rule per step, in reverse step order: step i's rule sits at position k-1-i. */
  lemma EmittedRulesAt(key: string, steps: seq<string>, k: nat)
    requires k <= |steps|
    ensures |EmittedRules(key, steps, k)| == k
    ensures forall i :: 0 <= i < k ==> EmittedRules(key, steps, k)[k - 1 - i] == StepRule(key, i, steps[i])
  {
    FrontInsertedAt(StepRules(key, steps), k);
  }

  /** Inserting the next step's rule at the front extends the emitted prefix by one. */
  lemma EmittedRulesNext(key: string, steps: seq<string>, k: nat, below: seq<string>)
    requires k < |steps|
    ensures [StepRule(key, k, steps[k])] + (EmittedRules(key, steps, k) + below) ==
            EmittedRules(key, steps, k + 1) + below
  {
    var rules := StepRules(key, steps);
    assert FrontInserted(rules, k + 1) == [rules[k]] + FrontInserted(rules, k);
  }

  // ---------------------------------------------------------------------
  // Facts about the encoding

  lemma NamespaceFree(id: nat)
    ensures Free(Namespace(id), '_')
  {
    var d := NatToString(id);
    DigitsFree(d, '_');
    var s := Namespace(id);
    forall k | 0 <= k < |s|
      ensures s[k] != '_'
    {
      if k < 18 {
        assert s[k] == "taro-h5-poly-fill/"[k];
      } else if k < 18 + |d| {
        assert s[k] == d[k - 18];
      } else {
        assert s[k] == "/create-animation"[k - 18 - |d|];
      }
    }
  }

  /** Different instances have different namespaces. */
  lemma NamespaceInjective(a: nat, b: nat)
    requires Namespace(a) == Namespace(b)
    ensures a == b
  {
    var sa, sb := Namespace(a), Namespace(b);
    var da, db := NatToString(a), NatToString(b);
    assert |da| == |db|;
    assert sa[18..18 + |da|] == da;
    assert sb[18..18 + |db|] == db;
    NatToStringInjective(a, b);
  }

  /** A key splits on `__` into its namespace and its counter. */
  lemma SplitKey(id: nat, count: nat)
    ensures Split(Key(id, count), Separator) == [Namespace(id), NatToString(count)]
  {
    NamespaceFree(id);
    DigitsFree(NatToString(count), '_');
    SplitAfterFree(Namespace(id), Separator, NatToString(count));
    SplitFree(NatToString(count), Separator);
  }

  /** A step value for i >= 1 splits on `__` into the namespace and the path `count--i`. */
  lemma SplitStepValue(id: nat, count: nat, i: nat)
    requires i >= 1
    ensures Split(StepValue(Key(id, count), i), Separator) == [Namespace(id), StepPath(count, i)]
  {
    var ns, path := Namespace(id), StepPath(count, i);
    StepValueParts(id, count, i);
    NamespaceFree(id);
    PathFree(count, i);
    SplitAfterFree(ns, Separator, path);
    SplitFree(path, Separator);
  }

  /** The part of a step value after `__`. */
  function StepPath(count: nat, i: nat): string {
    NatToString(count) + StepSeparator + NatToString(i)
  }

  lemma StepValueParts(id: nat, count: nat, i: nat)
    requires i >= 1
    ensures StepValue(Key(id, count), i) == Namespace(id) + Separator + StepPath(count, i)
  {
    var ns, c, n := Namespace(id), NatToString(count), NatToString(i);
    calc {
      StepValue(Key(id, count), i);
      (ns + Separator + c) + StepSeparator + n;
      { ConcatAssoc3(ns + Separator, c, StepSeparator, n); }
      ns + Separator + (c + StepSeparator + n);
    }
  }

  lemma ConcatAssoc3(a: string, b: string, c: string, d: string)
    ensures a + b + c + d == a + (b + c + d)
  {
  }

  lemma PathFree(count: nat, i: nat)
    ensures Free(StepPath(count, i), '_')
  {
    DigitsFree(NatToString(count), '_');
    DigitsFree(NatToString(i), '_');
  }

  /** The path `count--i` splits on `--` into counter and index. */
  lemma SplitStepPath(count: nat, i: nat)
    ensures Split(StepPath(count, i), StepSeparator) == [NatToString(count), NatToString(i)]
  {
    var c, n := NatToString(count), NatToString(i);
    DigitsFree(c, '-');
    DigitsFree(n, '-');
    SplitAfterFree(c, StepSeparator, n);
    SplitFree(n, StepSeparator);
  }

  /** Different (instance, counter) pairs give different keys. */
  lemma KeyInjective(a: nat, c: nat, b: nat, d: nat)
    requires Key(a, c) == Key(b, d)
    ensures a == b && c == d
  {
    SplitKey(a, c);
    SplitKey(b, d);
    NamespaceInjective(a, b);
    NatToStringInjective(c, d);
  }

  /** The keys an instance has allocated so far. */
  function KeysBelow(id: nat, count: nat): set<string> {
    set c: nat | c < count :: Key(id, c)
  }

  /** The next key is not among the ones already allocated. */
  lemma FreshKey(id: nat, count: nat)
    ensures Key(id, count) !in KeysBelow(id, count)
    ensures KeysBelow(id, count + 1) == KeysBelow(id, count) + {Key(id, count)}
  {
    if Key(id, count) in KeysBelow(id, count) {
      var c: nat :| c < count && Key(id, c) == Key(id, count);
      KeyInjective(id, c, id, count);
    }
  }

  // ---------------------------------------------------------------------
  // The playback handler's decision

  /**
   * What the handler does with an attribute value: nothing, advance the
   * attribute to `next`, or raise a TypeError (a value equal to the bare
   * namespace has no part after `__`, and `animPath.split` fails on
   * `undefined`).
   */
  datatype Reaction = Ignore | Fault | Advance(next: string)

  /** The split/compare logic of the transition-end handler of instance `id`. */
  function NextReaction(id: nat, animationMap: map<string, nat>, data: string): Reaction {
    var parts := Split(data, Separator);
    var animName := parts[0];
    if animName != Namespace(id) then Ignore
    else if |parts| < 2 then Fault
    else
      var pieces := Split(parts[1], StepSeparator);
      var animIndex := pieces[0];
      var stepIndex := if |pieces| < 2 then Some(0) else ToNumber(pieces[1]);
      var key := animName + Separator + animIndex;
      // an absent key reads as `undefined`, and the comparison with NaN is false
      if stepIndex.Some? && key in animationMap && stepIndex.value < animationMap[key] as int - 1 then
        Advance(key + StepSeparator + IntToString(stepIndex.value + 1))
      else Ignore
  }

  /**
   * At step i of a key this instance exported with n steps, the handler
   * advances to step i+1 exactly when i < n-1, and otherwise leaves the
   * value alone.
   */
  lemma NextReactionAtStep(id: nat, m: map<string, nat>, count: nat, i: nat)
    requires Key(id, count) in m
    ensures NextReaction(id, m, StepValue(Key(id, count), i)) ==
            if i + 1 < m[Key(id, count)] then Advance(StepValue(Key(id, count), i + 1)) else Ignore
  {
    if i == 0 {
      NextReactionAtFirst(id, m, count);
    } else {
      NextReactionAtLater(id, m, count, i);
    }
  }

  /** The value `key` itself reads as step 0. */
  lemma NextReactionAtFirst(id: nat, m: map<string, nat>, count: nat)
    requires Key(id, count) in m
    ensures NextReaction(id, m, Key(id, count)) ==
            if 1 < m[Key(id, count)] then Advance(StepValue(Key(id, count), 1)) else Ignore
  {
    var key, c := Key(id, count), NatToString(count);
    SplitKey(id, count);
    DigitsFree(c, '-');
    SplitFree(c, StepSeparator);
    assert Split(c, StepSeparator) == [c];
    assert Namespace(id) + Separator + c == key;
    assert IntToString(0 + 1) == NatToString(1);
  }

  /** The value `key--i` reads as step i. */
  lemma NextReactionAtLater(id: nat, m: map<string, nat>, count: nat, i: nat)
    requires Key(id, count) in m && i >= 1
    ensures NextReaction(id, m, StepValue(Key(id, count), i)) ==
            if i + 1 < m[Key(id, count)] then Advance(StepValue(Key(id, count), i + 1)) else Ignore
  {
    var key, c, n := Key(id, count), NatToString(count), NatToString(i);
    SplitStepValue(id, count, i);
    SplitStepPath(count, i);
    NatToStringRoundTrip(i);
    NextReactionOfParts(id, m, StepValue(key, i), StepPath(count, i), c, n, i);
    assert Namespace(id) + Separator + c == key;
    assert IntToString(i + 1) == NatToString(i + 1);
  }

  /** The handler's decision once the value is known to split into namespace, counter and index. */
  lemma NextReactionOfParts(id: nat, m: map<string, nat>, data: string, path: string, c: string, n: string, i: int)
    requires Split(data, Separator) == [Namespace(id), path]
    requires Split(path, StepSeparator) == [c, n] && ToNumber(n) == Some(i)
    ensures var key := Namespace(id) + Separator + c;
      NextReaction(id, m, data) ==
        if key in m && i < m[key] as int - 1 then Advance(key + StepSeparator + IntToString(i + 1)) else Ignore
  {
  }

  /** A key that was never exported is ignored, whatever the step. */
  lemma NextReactionAbsentKey(id: nat, m: map<string, nat>, count: nat, i: nat)
    requires Key(id, count) !in m
    ensures NextReaction(id, m, StepValue(Key(id, count), i)) == Ignore
  {
    var key, c := Key(id, count), NatToString(count);
    if i == 0 {
      SplitKey(id, count);
      DigitsFree(c, '-');
      SplitFree(c, StepSeparator);
    } else {
      SplitStepValue(id, count, i);
      SplitStepPath(count, i);
    }
    assert Namespace(id) + Separator + c == key;
  }

  /** The values of another instance's animations are ignored. */
  lemma NextReactionForeign(id: nat, other: nat, m: map<string, nat>, count: nat, i: nat)
    requires other != id
    ensures NextReaction(id, m, StepValue(Key(other, count), i)) == Ignore
  {
    if i == 0 {
      SplitKey(other, count);
    } else {
      SplitStepValue(other, count, i);
    }
    if Namespace(other) == Namespace(id) {
      NamespaceInjective(other, id);
    }
  }

  /** The bare namespace makes the handler throw. */
  lemma NextReactionBareNamespace(id: nat, m: map<string, nat>)
    ensures NextReaction(id, m, Namespace(id)) == Fault
  {
    NamespaceFree(id);
    SplitFree(Namespace(id), Separator);
  }

  /** The attribute value after `k` transition-end events, each answered by `next`. */
  function PlayWith(next: string -> Reaction, value: string, k: nat): string
    decreases k
  {
    if k == 0 then value
    else match next(value)
      case Advance(w) => PlayWith(next, w, k - 1)
      case _ => value
  }

  /** The attribute value after `k` transition-end events handled by instance `id`. */
  function Play(id: nat, m: map<string, nat>, value: string, k: nat): string {
    PlayWith(Handler(id, m), value, k)
  }

  /** The handler of instance `id` as a function of the attribute value. */
  function Handler(id: nat, m: map<string, nat>): string -> Reaction {
    d => NextReaction(id, m, d)
  }

  /** The last step index of an animation with n steps (0 when there are none). */
  function LastStep(n: nat): nat {
    if n == 0 then 0 else n - 1
  }

  /** The attribute values of one key's steps, by step index. */
  function StepValues(key: string): nat -> string {
    (j: nat) => StepValue(key, j)
  }

  /** `next` moves from value `at(j)` to `at(j+1)` while j < n-1, and stops at the last step. */
  ghost predicate WalksSteps(next: string -> Reaction, at: nat -> string, n: nat) {
    forall j: nat {:trigger next(at(j))} :: next(at(j)) == if j + 1 < n then Advance(at(j + 1)) else Ignore
  }

  /** Starting at step i, k events reach step min(i+k, n-1). */
  lemma {:induction false} PlayWithTrace(next: string -> Reaction, at: nat -> string, n: nat, i: nat, k: nat)
    requires WalksSteps(next, at, n) && i <= LastStep(n)
    ensures PlayWith(next, at(i), k) == at(Min(i + k, LastStep(n)))
    decreases k
  {
    if k > 0 {
      assert next(at(i)) == if i + 1 < n then Advance(at(i + 1)) else Ignore;
      if i + 1 < n {
        PlayWithTrace(next, at, n, i + 1, k - 1);
      }
    }
  }

  /**
   * An animation exported with n steps is played through exactly
   * `key`, `key--1`, ..., `key--(n-1)` and then stays there.
   */
  lemma PlayTrace(id: nat, m: map<string, nat>, count: nat, i: nat, k: nat)
    requires Key(id, count) in m && i <= LastStep(m[Key(id, count)])
    ensures Play(id, m, StepValue(Key(id, count), i), k) ==
            StepValue(Key(id, count), Min(i + k, LastStep(m[Key(id, count)])))
  {
    var key := Key(id, count);
    HandlerWalksSteps(id, m, count);
    PlayWithTrace(Handler(id, m), StepValues(key), m[key], i, k);
    assert StepValues(key)(i) == StepValue(key, i);
    assert StepValues(key)(Min(i + k, LastStep(m[key]))) == StepValue(key, Min(i + k, LastStep(m[key])));
  }

  lemma HandlerWalksSteps(id: nat, m: map<string, nat>, count: nat)
    requires Key(id, count) in m
    ensures WalksSteps(Handler(id, m), StepValues(Key(id, count)), m[Key(id, count)])
  {
    var key := Key(id, count);
    var at := StepValues(key);
    forall j: nat {:trigger Handler(id, m)(at(j))}
      ensures Handler(id, m)(at(j)) == if j + 1 < m[key] then Advance(at(j + 1)) else Ignore
    {
      NextReactionAtStep(id, m, count, j);
      assert at(j) == StepValue(key, j) && at(j + 1) == StepValue(key, j + 1);
    }
  }

  function Min(a: nat, b: nat): nat {
    if a < b then a else b
  }

  // ---------------------------------------------------------------------
  // The handler's effect on an element's attributes

  const AnimationAttr := "animation"
  const DataAnimationAttr := "data-animation"

  /**
   * The attributes after the handler read attribute `attr`: on an advance
   * the attribute is set to the next value, and `data-animation` is written
   * as well when `attr` is `animation`.
   */
  function Playback(id: nat, m: map<string, nat>, attr: string, attrs: map<string, string>): map<string, string> {
    if attr !in attrs then attrs
    else match NextReaction(id, m, attrs[attr])
      case Advance(v) =>
        if attr == AnimationAttr then attrs[attr := v][DataAnimationAttr := v] else attrs[attr := v]
      case _ => attrs
  }

  /**
   * Playback changes nothing unless the handler advances; when it does, it
   * writes the next value to `attr`, dual-writes it to `data-animation` when
   * `attr` is `animation`, and leaves every other attribute alone.
   */
  lemma PlaybackEffect(id: nat, m: map<string, nat>, attr: string, attrs: map<string, string>)
    ensures attr !in attrs ==> Playback(id, m, attr, attrs) == attrs
    ensures attr in attrs && !NextReaction(id, m, attrs[attr]).Advance? ==> Playback(id, m, attr, attrs) == attrs
    ensures attr in attrs && NextReaction(id, m, attrs[attr]).Advance? ==>
      var v := NextReaction(id, m, attrs[attr]).next;
      var r := Playback(id, m, attr, attrs);
      && r[attr] == v
      && (attr == AnimationAttr ==> r[DataAnimationAttr] == v)
      && r.Keys == attrs.Keys + (if attr == AnimationAttr then {DataAnimationAttr} else {})
      && forall a :: a in attrs && a != attr && (attr == AnimationAttr ==> a != DataAnimationAttr) ==> r[a] == attrs[a]
  {
  }
  /**
   * At step i of an exported key, the attribute read moves to step i+1
   * exactly when i < n-1, together with `data-animation` when the
   * attribute read is `animation`; at the last step nothing changes.
   */
  lemma PlaybackAtStep(id: nat, m: map<string, nat>, count: nat, i: nat, attr: string, attrs: map<string, string>)
    requires Key(id, count) in m && attr in attrs && attrs[attr] == StepValue(Key(id, count), i)
    ensures var next := StepValue(Key(id, count), i + 1);
      Playback(id, m, attr, attrs) ==
        if i + 1 >= m[Key(id, count)] then attrs
        else if attr == AnimationAttr then attrs[attr := next][DataAnimationAttr := next]
        else attrs[attr := next]
  {
    NextReactionAtStep(id, m, count, i);
  }

  /** An element showing another instance's animation is left alone. */
  lemma PlaybackForeign(id: nat, other: nat, m: map<string, nat>, count: nat, i: nat,
                        attr: string, attrs: map<string, string>)
    requires other != id && attr in attrs && attrs[attr] == StepValue(Key(other, count), i)
    ensures Playback(id, m, attr, attrs) == attrs
  {
    NextReactionForeign(id, other, m, count, i);
  }

  /** An element showing a key this instance never exported is left alone. */
  lemma PlaybackAbsentKey(id: nat, m: map<string, nat>, count: nat, i: nat,
                          attr: string, attrs: map<string, string>)
    requires Key(id, count) !in m && attr in attrs && attrs[attr] == StepValue(Key(id, count), i)
    ensures Playback(id, m, attr, attrs) == attrs
  {
    NextReactionAbsentKey(id, m, count, i);
  }
}
