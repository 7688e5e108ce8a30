/**
 * How `step()` freezes the pending style rules and transform functions
 * into one CSS declaration block.
 */
module Steps {
  import opened Strings

  /** The transform property name (vendor prefixes are not modelled). */
  const Transform := "transform"

  /** The first entry of every pending transform list. */
  const TransformHeader := Transform + ":"

  const Important := "!important"

  /** Timing parameters of one step: the instance defaults or one step's own. */
  datatype Timing = Timing(duration: int, delay: int, timingFunction: string, transformOrigin: string)

  /** The argument of `step()`: every field may be left out. */
  datatype StepOptions = StepOptions(
    duration: Option<int>, delay: Option<int>, timingFunction: Option<string>, transformOrigin: Option<string>)

  function GetOr<T>(o: Option<T>, default: T): T {
    match o
    case Some(v) => v
    case None => default
  }

  /** Each field of `arg` that is present overrides the default. */
  function Resolve(arg: StepOptions, default: Timing): Timing {
    Timing(
      GetOr(arg.duration, default.duration),
      GetOr(arg.delay, default.delay),
      GetOr(arg.timingFunction, default.timingFunction),
      GetOr(arg.transformOrigin, default.transformOrigin))
  }

  /** A field present in the argument wins; an absent one falls back to the default. */
  lemma ResolveFields(arg: StepOptions, default: Timing)
    ensures Resolve(arg, default).duration == if arg.duration.Some? then arg.duration.value else default.duration
    ensures Resolve(arg, default).delay == if arg.delay.Some? then arg.delay.value else default.delay
    ensures Resolve(arg, default).timingFunction ==
            if arg.timingFunction.Some? then arg.timingFunction.value else default.timingFunction
    ensures Resolve(arg, default).transformOrigin ==
            if arg.transformOrigin.Some? then arg.transformOrigin.value else default.transformOrigin
    ensures Resolve(StepOptions(None, None, None, None), default) == default
  {
  }

  function MarkImportant(rules: seq<string>): (r: seq<string>)
    ensures |r| == |rules|
    ensures forall i :: 0 <= i < |rules| ==> r[i] == rules[i] + Important
  {
    if |rules| == 0 then [] else [rules[0] + Important] + MarkImportant(rules[1..])
  }

  /** `rules.map(rule => rule + '!important').join(';')` */
  function RulesSegment(rules: seq<string>): string {
    Join(MarkImportant(rules), ";")
  }

  /** `transform.join(' ') + '!important'` */
  function TransformSegment(transform: seq<string>): string {
    Join(transform, " ") + Important
  }

  function OriginSegment(t: Timing): string {
    Transform + "-origin: " + t.transformOrigin
  }

  function TransitionSegment(t: Timing): string {
    "transition: all " + IntToString(t.duration) + "ms " + t.timingFunction + " " + IntToString(t.delay) + "ms"
  }

  /** The four candidate segments of a step, before filtering. */
  function Segments(rules: seq<string>, transform: seq<string>, t: Timing): seq<string> {
    [RulesSegment(rules), TransformSegment(transform), OriginSegment(t), TransitionSegment(t)]
  }

  /** `items.filter(item => item !== '' && item !== drop)` */
  function Filter(items: seq<string>, drop: string): (r: seq<string>)
    ensures forall i :: 0 <= i < |r| ==> r[i] != "" && r[i] != drop
    ensures |r| <= |items|
  {
    if |items| == 0 then []
    else if items[0] == "" || items[0] == drop then Filter(items[1..], drop)
    else [items[0]] + Filter(items[1..], drop)
  }

  /** Whether the filter keeps `x`. */
  predicate Kept(x: string, drop: string) {
    x != "" && x != drop
  }

  /**
   * The filter keeps order: filtering a concatenation filters each part,
   * and a single item is kept exactly when it is neither `""` nor `drop`.
   */
  lemma {:induction false} FilterConcat(a: seq<string>, b: seq<string>, drop: string)
    ensures Filter(a + b, drop) == Filter(a, drop) + Filter(b, drop)
    ensures Filter([], drop) == []
  {
    if |a| > 0 {
      assert (a + b)[1..] == a[1..] + b;
      FilterConcat(a[1..], b, drop);
    } else {
      assert a + b == b;
    }
  }

  lemma FilterOne(x: string, drop: string)
    ensures Filter([x], drop) == if Kept(x, drop) then [x] else []
  {
    assert [x][1..] == [];
  }

  /** The filter keeps exactly the items that are neither `""` nor `drop`, each as often as it occurs. */
  lemma {:induction false} FilterContents(items: seq<string>, drop: string)
    ensures forall x :: x in Filter(items, drop) <==> x in items && Kept(x, drop)
    ensures multiset(Filter(items, drop)) <= multiset(items)
    ensures forall x :: Kept(x, drop) ==> multiset(Filter(items, drop))[x] == multiset(items)[x]
  {
    if |items| > 0 {
      assert items == [items[0]] + items[1..];
      FilterContents(items[1..], drop);
    }
  }

  /** The step body as the source assembles it: the filter drops "" and the bare header. */
  function StepBodyAsWritten(rules: seq<string>, transform: seq<string>, t: Timing): string {
    Join(Filter(Segments(rules, transform, t), TransformHeader), ";")
  }

  /**
   * The step body with the filter comparing against the transform segment
   * as it is actually built, header plus `!important`, so that a step
   * without transform functions carries no transform declaration.
   */
  function StepBody(rules: seq<string>, transform: seq<string>, t: Timing): string {
    Join(Filter(Segments(rules, transform, t), TransformHeader + Important), ";")
  }

  /** The transform segment of a list that holds only the header. */
  lemma BareTransformSegment()
    ensures TransformSegment([TransformHeader]) == TransformHeader + Important
  {
  }

  /**
   * As written, the filter never drops the bare header: a step with no
   * rules and no transform functions still starts with
   * `transform:!important`, so it differs from the intended body.
   */
  lemma StepBodyAsWrittenKeepsHeader(t: Timing)
    ensures StepBodyAsWritten([], [TransformHeader], t) ==
            TransformHeader + Important + ";" + OriginSegment(t) + ";" + TransitionSegment(t)
    ensures StepBodyAsWritten([], [TransformHeader], t) != StepBody([], [TransformHeader], t)
  {
    var o, tr := OriginSegment(t), TransitionSegment(t);
    var bare := TransformHeader + Important;
    BareTransformSegment();
    assert RulesSegment([]) == "";
    OriginNotBare(t);
    TransitionNotBare(t);
    assert Segments([], [TransformHeader], t) == ["", bare, o, tr];
    var s := ["", bare, o, tr];
    assert s[1..] == [bare, o, tr] && s[1..][1..] == [o, tr] && s[1..][1..][1..] == [tr];
    assert |bare| > |TransformHeader| > 0;
    assert Filter([tr], TransformHeader) == [tr] && Filter([tr], bare) == [tr];
    assert Filter([o, tr], TransformHeader) == [o, tr] && Filter([o, tr], bare) == [o, tr];
    assert Filter([bare, o, tr], TransformHeader) == [bare, o, tr];
    assert Filter([bare, o, tr], bare) == [o, tr];
    assert Filter(s, TransformHeader) == [bare, o, tr];
    assert Filter(s, bare) == [o, tr];
    JoinThree(bare, o, tr, ";");
    JoinTwo(o, tr, ";");
    assert |bare + ";" + o + ";" + tr| > |o + ";" + tr|;
  }

  lemma OriginNotBare(t: Timing)
    ensures OriginSegment(t) != "" && OriginSegment(t) != TransformHeader
    ensures OriginSegment(t) != TransformHeader + Important
  {
    var o := OriginSegment(t);
    assert o[9] == '-';
  }

  lemma TransitionNotBare(t: Timing)
    ensures TransitionSegment(t) != "" && TransitionSegment(t) != TransformHeader
    ensures TransitionSegment(t) != TransformHeader + Important
  {
    var s := TransitionSegment(t);
    assert s[1] == 'r' && s[2] == 'a';
  }

  lemma JoinTwo(a: string, b: string, sep: string)
    ensures Join([a, b], sep) == a + sep + b
  {
    assert [a, b][1..] == [b];
  }

  lemma JoinThree(a: string, b: string, c: string, sep: string)
    ensures Join([a, b, c], sep) == a + sep + b + sep + c
  {
    assert [a, b, c][1..] == [b, c];
    JoinTwo(b, c, sep);
  }

  /** The rules segment is empty exactly when there are no rules. */
  lemma RulesSegmentEmpty(rules: seq<string>)
    ensures (RulesSegment(rules) == "") == (rules == [])
  {
    if rules != [] {
      var marked := MarkImportant(rules);
      if |marked| == 1 {
        assert RulesSegment(rules) == rules[0] + Important;
      } else {
        assert |RulesSegment(rules)| >= |marked[0]|;
      }
    }
  }

  /** No rule is the bare header, so the rules segment is never `transform:!important`. */
  lemma RulesSegmentNotBare(rules: seq<string>)
    requires TransformHeader !in rules
    ensures RulesSegment(rules) != TransformHeader + Important
  {
    var bare := TransformHeader + Important;
    var marked := MarkImportant(rules);
    if |marked| == 1 {
      var x := rules[0] + Important;
      assert RulesSegment(rules) == x;
      assert x[..|rules[0]|] == rules[0];
      assert bare[..|TransformHeader|] == TransformHeader;
      assert |x| == |bare| ==> |rules[0]| == |TransformHeader|;
    } else if |marked| >= 2 {
      var r := RulesSegment(rules);
      assert r == marked[0] + ";" + Join(marked[1..], ";");
      assert r[|marked[0]|] == ';';
      assert forall k :: 0 <= k < |bare| ==> bare[k] != ';';
    }
  }

  /** The rules segment is never the bare header `transform:`, whatever the rules. */
  lemma RulesSegmentNotHeader(rules: seq<string>)
    ensures RulesSegment(rules) != TransformHeader
  {
    var marked := MarkImportant(rules);
    var r := RulesSegment(rules);
    if |marked| == 1 {
      var x := rules[0] + Important;
      assert r == x;
      assert x[|x| - 1] == 't';
    } else if |marked| >= 2 {
      assert r == marked[0] + ";" + Join(marked[1..], ";");
      assert r[|marked[0]|] == ';';
      assert forall k :: 0 <= k < |TransformHeader| ==> TransformHeader[k] != ';';
    }
  }

  /** The transform segment always ends in `!important`, so it is never `""` or the bare header. */
  lemma TransformSegmentNotHeader(transform: seq<string>)
    ensures TransformSegment(transform) != "" && TransformSegment(transform) != TransformHeader
  {
    var x := TransformSegment(transform);
    assert x[|x| - 1] == 't';
  }

  lemma FilterFour(a: string, b: string, c: string, d: string, drop: string)
    ensures Filter([a, b, c, d], drop) ==
            Filter([a], drop) + Filter([b], drop) + Filter([c], drop) + Filter([d], drop)
  {
    assert [a, b, c, d] == [a] + [b] + [c] + [d];
    FilterConcat([a] + [b] + [c], [d], drop);
    FilterConcat([a] + [b], [c], drop);
    FilterConcat([a], [b], drop);
  }

  /**
   * The step body as written: the rules segment when there are rules, then
   * the transform segment always (bare or not), then origin and transition.
   */
  lemma StepBodyAsWrittenShape(rules: seq<string>, transform: seq<string>, t: Timing)
    ensures StepBodyAsWritten(rules, transform, t) ==
            Join((if rules == [] then [] else [RulesSegment(rules)])
                 + [TransformSegment(transform), OriginSegment(t), TransitionSegment(t)], ";")
  {
    var r, x, o, tr := RulesSegment(rules), TransformSegment(transform), OriginSegment(t), TransitionSegment(t);
    RulesSegmentEmpty(rules);
    RulesSegmentNotHeader(rules);
    TransformSegmentNotHeader(transform);
    OriginNotBare(t);
    TransitionNotBare(t);
    FilterFour(r, x, o, tr, TransformHeader);
    FilterOne(r, TransformHeader);
    FilterOne(x, TransformHeader);
    FilterOne(o, TransformHeader);
    FilterOne(tr, TransformHeader);
    var keptR := if rules == [] then [] else [r];
    assert Filter(Segments(rules, transform, t), TransformHeader) == keptR + [x] + [o] + [tr];
    assert keptR + [x] + [o] + [tr] == keptR + [x, o, tr];
  }

  /**
   * Once a transform function was added, the body as written and the
   * corrected body coincide: the two differ only for steps without one.
   */
  lemma StepBodyAgree(rules: seq<string>, transform: seq<string>, t: Timing)
    requires |transform| > 1 && transform[0] == TransformHeader && TransformHeader !in rules
    ensures StepBodyAsWritten(rules, transform, t) == StepBody(rules, transform, t)
  {
    StepBodyAsWrittenShape(rules, transform, t);
    StepBodyShape(rules, transform, t);
    var keptR := if rules == [] then [] else [RulesSegment(rules)];
    var x, o, tr := TransformSegment(transform), OriginSegment(t), TransitionSegment(t);
    assert keptR + [x, o, tr] == keptR + [x] + [o, tr];
  }

  /** The transform segment is `transform:!important` exactly when only the header is present. */
  lemma TransformSegmentBare(transform: seq<string>)
    requires |transform| >= 1 && transform[0] == TransformHeader
    ensures (TransformSegment(transform) == TransformHeader + Important) == (|transform| == 1)
  {
    if |transform| > 1 {
      assert Join(transform, " ") == TransformHeader + " " + Join(transform[1..], " ");
      assert |TransformSegment(transform)| > |TransformHeader + Important|;
    }
  }

  /**
   * The intended body: the rules segment when there are rules, the
   * transform segment when a transform function was added, then the origin
   * and the transition, joined by `;`.
   */
  lemma StepBodyShape(rules: seq<string>, transform: seq<string>, t: Timing)
    requires |transform| >= 1 && transform[0] == TransformHeader && TransformHeader !in rules
    ensures StepBody(rules, transform, t) ==
            Join((if rules == [] then [] else [RulesSegment(rules)])
                 + (if |transform| == 1 then [] else [TransformSegment(transform)])
                 + [OriginSegment(t), TransitionSegment(t)], ";")
  {
    var bare := TransformHeader + Important;
    var s := Segments(rules, transform, t);
    RulesSegmentEmpty(rules);
    RulesSegmentNotBare(rules);
    TransformSegmentBare(transform);
    OriginNotBare(t);
    TransitionNotBare(t);
    assert TransformSegment(transform) != "";
    var o, tr := OriginSegment(t), TransitionSegment(t);
    assert s[1..][1..] == [o, tr] && [o, tr][1..] == [tr];
    assert Filter([tr], bare) == [tr];
    assert Filter([o, tr], bare) == [o, tr];
    var keptT := if |transform| == 1 then [] else [TransformSegment(transform)];
    assert Filter(s[1..], bare) == keptT + [o, tr];
    var keptR := if rules == [] then [] else [RulesSegment(rules)];
    assert Filter(s, bare) == keptR + (keptT + [o, tr]);
    assert keptR + (keptT + [o, tr]) == keptR + keptT + [o, tr];
  }

  /** A step with no rules and no transform functions: only the origin and the transition. */
  lemma StepBodyBare(t: Timing)
    ensures StepBody([], [TransformHeader], t) == OriginSegment(t) + ";" + TransitionSegment(t)
  {
    StepBodyShape([], [TransformHeader], t);
    JoinTwo(OriginSegment(t), TransitionSegment(t), ";");
  }
}
