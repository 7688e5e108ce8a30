/**
 * The `Animation` builder: transform and style methods accumulate CSS text,
 * `step()` freezes it into a keyframe, `export()` writes one CSS rule per
 * keyframe into the shared sheet, and the transition-end handler advances
 * an element through the keyframes of an exported key.
 */
module Animations {
  import opened Strings
  import opened Values
  import opened Keys
  import opened Steps
  import opened StyleSheets

  /** The options of `createAnimation`; a field left out takes its default. */
  datatype AnimationOptions = AnimationOptions(
    duration: Option<int>, delay: Option<int>, timingFunction: Option<string>,
    transformOrigin: Option<string>, unit: Option<string>)

  /** The module-level state shared by every instance: the id counter and the sheet. */
  class ModuleScope {
    var animId: nat
    const styleSheet: StyleSheet

    constructor ()
      ensures animId == 0 && fresh(styleSheet) && !styleSheet.mounted && styleSheet.rules == []
    {
      animId := 0;
      styleSheet := new StyleSheet();
    }
  }

  /** A DOM element, reduced to its attributes. */
  class Element {
    var attrs: map<string, string>

    constructor (attrs: map<string, string>)
      ensures this.attrs == attrs
    {
      this.attrs := attrs;
    }
  }

  class Animation {
    var unit: string
    const id: nat
    var defaults: Timing
    /** Style rules of the step being built. */
    var rules: seq<string>
    /** Transform functions of the step being built, after the `transform:` header. */
    var transform: seq<string>
    /** Frozen keyframes not yet exported. */
    var steps: seq<string>
    /** Exported key to its number of steps; never pruned. */
    var animationMap: map<string, nat>
    var animationMapCount: nat
    /** The attribute the transition-end handler reads (closure state of the listener). */
    var animAttr: string
    const sheet: StyleSheet

    ghost predicate Valid()
      reads this
    {
      && |transform| >= 1 && transform[0] == TransformHeader
      && TransformHeader !in rules
      && (animAttr == AnimationAttr || animAttr == DataAnimationAttr)
      && animationMap.Keys == KeysBelow(id, animationMapCount)
    }

    /**
     * Takes the next instance id (`++animId`), records the defaults and the
     * unit, and starts with empty accumulators.
     */
    constructor (scope: ModuleScope, options: AnimationOptions)
      modifies scope
      ensures Valid()
      ensures scope.animId == old(scope.animId) + 1 && id == scope.animId
      ensures sheet == scope.styleSheet
      ensures unit == GetOr(options.unit, "px")
      ensures defaults == Timing(GetOr(options.duration, 400), GetOr(options.delay, 0),
                                 GetOr(options.timingFunction, "linear"),
                                 GetOr(options.transformOrigin, "50% 50% 0"))
      ensures rules == [] && transform == [TransformHeader] && steps == []
      ensures animationMap == map[] && animationMapCount == 0 && animAttr == AnimationAttr
    {
      unit := GetOr(options.unit, "px");
      scope.animId := scope.animId + 1;
      id := scope.animId;
      sheet := scope.styleSheet;
      rules := [];
      transform := [TransformHeader];
      steps := [];
      animationMap := map[];
      animationMapCount := 0;
      animAttr := AnimationAttr;
      new;
      SetDefault(GetOr(options.duration, 400), GetOr(options.delay, 0),
                 GetOr(options.timingFunction, "linear"), GetOr(options.transformOrigin, "50% 50% 0"));
    }

    method SetDefault(duration: int, delay: int, timingFunction: string, transformOrigin: string)
      modifies this`defaults
      ensures defaults == Timing(duration, delay, timingFunction, transformOrigin)
    {
      defaults := Timing(duration, delay, timingFunction, transformOrigin);
    }

    /** Numeric arguments get the unit suffix; the others are rendered as they are. */
    method TransformUnit(args: seq<Arg>) returns (ret: seq<string>)
      ensures |ret| == |args|
      ensures forall i :: 0 <= i < |args| ==>
        ret[i] == if IsNaN(args[i]) then Render(args[i]) else Render(args[i]) + unit
    {
      ret := [];
      var i := 0;
      while i < |args|
        invariant 0 <= i <= |args| && |ret| == i
        invariant forall k :: 0 <= k < i ==>
          ret[k] == if IsNaN(args[k]) then Render(args[k]) else Render(args[k]) + unit
      {
        var each := args[i];
        ret := ret + [if IsNaN(each) then Render(each) else Render(each) + unit];
        i := i + 1;
      }
    }

    // -------------------------------------------------------------------
    // Transform methods: each appends one transform function

    method PushTransform(f: string) returns (self: Animation)
      requires Valid()
      modifies this`transform
      ensures self == this && Valid()
      ensures transform == old(transform) + [f]
    {
      transform := transform + [f];
      self := this;
    }

    method Matrix(a: Arg, b: Arg, c: Arg, d: Arg, tx: Arg, ty: Arg) returns (self: Animation)
      requires Valid()
      modifies this`transform
      ensures self == this && Valid()
      ensures transform == old(transform) + [CssCall("matrix", RenderAll([a, b, c, d, tx, ty]))]
    {
      self := PushTransform(CssCall("matrix", RenderAll([a, b, c, d, tx, ty])));
    }

    method Matrix3d(a1: Arg, b1: Arg, c1: Arg, d1: Arg, a2: Arg, b2: Arg, c2: Arg, d2: Arg,
                    a3: Arg, b3: Arg, c3: Arg, d3: Arg, a4: Arg, b4: Arg, c4: Arg, d4: Arg)
      returns (self: Animation)
      requires Valid()
      modifies this`transform
      ensures self == this && Valid()
      ensures transform == old(transform) +
        [CssCall("matrix3d", RenderAll([a1, b1, c1, d1, a2, b2, c2, d2, a3, b3, c3, d3, a4, b4, c4, d4]))]
    {
      self := PushTransform(
        CssCall("matrix3d", RenderAll([a1, b1, c1, d1, a2, b2, c2, d2, a3, b3, c3, d3, a4, b4, c4, d4])));
    }

    method Rotate(angle: Arg) returns (self: Animation)
      requires Valid()
      modifies this`transform
      ensures self == this && Valid()
      ensures transform == old(transform) + [CssCall("rotate", [Render(angle) + "deg"])]
    {
      self := PushTransform(CssCall("rotate", [Render(angle) + "deg"]));
    }

    method Rotate3d(x: Arg, y: Arg := Undefined, z: Arg := Undefined, angle: Arg := Undefined)
      returns (self: Animation)
      requires Valid()
      modifies this`transform
      ensures self == this && Valid()
      ensures transform == old(transform) + [Values.Rotate3d(x, y, z, angle)]
    {
      if !y.Num? {
        self := PushTransform(CssCall("rotate3d", [Render(x)]));
      } else {
        self := PushTransform(CssCall("rotate3d", [Render(x), Render(y), OrZero(z), OrZero(angle) + "deg"]));
      }
    }

    method RotateX(angle: Arg) returns (self: Animation)
      requires Valid()
      modifies this`transform
      ensures self == this && Valid()
      ensures transform == old(transform) + [CssCall("rotateX", [Render(angle) + "deg"])]
    {
      self := PushTransform(CssCall("rotateX", [Render(angle) + "deg"]));
    }

    method RotateY(angle: Arg) returns (self: Animation)
      requires Valid()
      modifies this`transform
      ensures self == this && Valid()
      ensures transform == old(transform) + [CssCall("rotateY", [Render(angle) + "deg"])]
    {
      self := PushTransform(CssCall("rotateY", [Render(angle) + "deg"]));
    }

    method RotateZ(angle: Arg) returns (self: Animation)
      requires Valid()
      modifies this`transform
      ensures self == this && Valid()
      ensures transform == old(transform) + [CssCall("rotateZ", [Render(angle) + "deg"])]
    {
      self := PushTransform(CssCall("rotateZ", [Render(angle) + "deg"]));
    }

    method Scale(x: Arg, y: Arg) returns (self: Animation)
      requires Valid()
      modifies this`transform
      ensures self == this && Valid()
      ensures transform == old(transform) + [CssCall("scale", [Render(x), Render(y)])]
    {
      self := PushTransform(CssCall("scale", [Render(x), Render(y)]));
    }

    method Scale3d(x: Arg, y: Arg, z: Arg) returns (self: Animation)
      requires Valid()
      modifies this`transform
      ensures self == this && Valid()
      ensures transform == old(transform) + [CssCall("scale3d", [Render(x), Render(y), Render(z)])]
    {
      self := PushTransform(CssCall("scale3d", [Render(x), Render(y), Render(z)]));
    }

    method ScaleX(scale: Arg) returns (self: Animation)
      requires Valid()
      modifies this`transform
      ensures self == this && Valid()
      ensures transform == old(transform) + [CssCall("scaleX", [Render(scale)])]
    {
      self := PushTransform(CssCall("scaleX", [Render(scale)]));
    }

    method ScaleY(scale: Arg) returns (self: Animation)
      requires Valid()
      modifies this`transform
      ensures self == this && Valid()
      ensures transform == old(transform) + [CssCall("scaleY", [Render(scale)])]
    {
      self := PushTransform(CssCall("scaleY", [Render(scale)]));
    }

    method ScaleZ(scale: Arg) returns (self: Animation)
      requires Valid()
      modifies this`transform
      ensures self == this && Valid()
      ensures transform == old(transform) + [CssCall("scaleZ", [Render(scale)])]
    {
      self := PushTransform(CssCall("scaleZ", [Render(scale)]));
    }

    method Skew(x: Arg, y: Arg) returns (self: Animation)
      requires Valid()
      modifies this`transform
      ensures self == this && Valid()
      ensures transform == old(transform) + [CssCall("skew", [Render(x), Render(y)])]
    {
      self := PushTransform(CssCall("skew", [Render(x), Render(y)]));
    }

    /** The skew angles carry no unit suffix: the caller's text is used as it is. */
    method SkewX(angle: Arg) returns (self: Animation)
      requires Valid()
      modifies this`transform
      ensures self == this && Valid()
      ensures transform == old(transform) + [CssCall("skewX", [Render(angle)])]
    {
      self := PushTransform(CssCall("skewX", [Render(angle)]));
    }

    method SkewY(angle: Arg) returns (self: Animation)
      requires Valid()
      modifies this`transform
      ensures self == this && Valid()
      ensures transform == old(transform) + [CssCall("skewY", [Render(angle)])]
    {
      self := PushTransform(CssCall("skewY", [Render(angle)]));
    }

    method Translate(x: Arg, y: Arg) returns (self: Animation)
      requires Valid()
      modifies this`transform
      ensures self == this && Valid()
      ensures transform == old(transform) + [CssCall("translate", [WithUnit(x, unit), WithUnit(y, unit)])]
    {
      var u := TransformUnit([x, y]);
      assert u == [WithUnit(x, unit), WithUnit(y, unit)];
      self := PushTransform(CssCall("translate", u));
    }

    method Translate3d(x: Arg, y: Arg, z: Arg) returns (self: Animation)
      requires Valid()
      modifies this`transform
      ensures self == this && Valid()
      ensures transform == old(transform) +
        [CssCall("translate3d", [WithUnit(x, unit), WithUnit(y, unit), WithUnit(z, unit)])]
    {
      var u := TransformUnit([x, y, z]);
      assert u == [WithUnit(x, unit), WithUnit(y, unit), WithUnit(z, unit)];
      self := PushTransform(CssCall("translate3d", u));
    }

    method TranslateX(translate: Arg) returns (self: Animation)
      requires Valid()
      modifies this`transform
      ensures self == this && Valid()
      ensures transform == old(transform) + [CssCall("translateX", [WithUnit(translate, unit)])]
    {
      var u := TransformUnit([translate]);
      self := PushTransform(CssCall("translateX", [u[0]]));
    }

    method TranslateY(translate: Arg) returns (self: Animation)
      requires Valid()
      modifies this`transform
      ensures self == this && Valid()
      ensures transform == old(transform) + [CssCall("translateY", [WithUnit(translate, unit)])]
    {
      var u := TransformUnit([translate]);
      self := PushTransform(CssCall("translateY", [u[0]]));
    }

    method TranslateZ(translate: Arg) returns (self: Animation)
      requires Valid()
      modifies this`transform
      ensures self == this && Valid()
      ensures transform == old(transform) + [CssCall("translateZ", [WithUnit(translate, unit)])]
    {
      var u := TransformUnit([translate]);
      self := PushTransform(CssCall("translateZ", [u[0]]));
    }

    // -------------------------------------------------------------------
    // Style methods: each appends one `property: value` rule

    method PushRule(property: string, value: string) returns (self: Animation)
      requires Valid()
      modifies this`rules
      ensures self == this && Valid()
      ensures rules == old(rules) + [Decl(property, value)]
    {
      DeclNotHeader(property, value);
      rules := rules + [Decl(property, value)];
      self := this;
    }

    method Opacity(value: Arg) returns (self: Animation)
      requires Valid()
      modifies this`rules
      ensures self == this && Valid()
      ensures rules == old(rules) + [Decl("opacity", Render(value))]
    {
      self := PushRule("opacity", Render(value));
    }

    method BackgroundColor(value: Arg) returns (self: Animation)
      requires Valid()
      modifies this`rules
      ensures self == this && Valid()
      ensures rules == old(rules) + [Decl("background-color", Render(value))]
    {
      self := PushRule("background-color", Render(value));
    }

    method Width(value: Arg) returns (self: Animation)
      requires Valid()
      modifies this`rules
      ensures self == this && Valid()
      ensures rules == old(rules) + [Decl("width", WithUnit(value, unit))]
    {
      var u := TransformUnit([value]);
      self := PushRule("width", u[0]);
    }

    method Height(value: Arg) returns (self: Animation)
      requires Valid()
      modifies this`rules
      ensures self == this && Valid()
      ensures rules == old(rules) + [Decl("height", WithUnit(value, unit))]
    {
      var u := TransformUnit([value]);
      self := PushRule("height", u[0]);
    }

    method Top(value: Arg) returns (self: Animation)
      requires Valid()
      modifies this`rules
      ensures self == this && Valid()
      ensures rules == old(rules) + [Decl("top", WithUnit(value, unit))]
    {
      var u := TransformUnit([value]);
      self := PushRule("top", u[0]);
    }

    method Right(value: Arg) returns (self: Animation)
      requires Valid()
      modifies this`rules
      ensures self == this && Valid()
      ensures rules == old(rules) + [Decl("right", WithUnit(value, unit))]
    {
      var u := TransformUnit([value]);
      self := PushRule("right", u[0]);
    }

    method Bottom(value: Arg) returns (self: Animation)
      requires Valid()
      modifies this`rules
      ensures self == this && Valid()
      ensures rules == old(rules) + [Decl("bottom", WithUnit(value, unit))]
    {
      var u := TransformUnit([value]);
      self := PushRule("bottom", u[0]);
    }

    method Left(value: Arg) returns (self: Animation)
      requires Valid()
      modifies this`rules
      ensures self == this && Valid()
      ensures rules == old(rules) + [Decl("left", WithUnit(value, unit))]
    {
      var u := TransformUnit([value]);
      self := PushRule("left", u[0]);
    }

    // -------------------------------------------------------------------
    // Keyframes and export

    /**
     * Freezes the pending rules and transform functions into one keyframe,
     * with each timing field taken from `arg` when given and from the
     * defaults otherwise, and starts the next keyframe empty.
     */
    method Step(arg: StepOptions := StepOptions(None, None, None, None)) returns (self: Animation)
      requires Valid()
      modifies this`steps, this`rules, this`transform
      ensures self == this && Valid()
      ensures steps == old(steps) + [StepBody(old(rules), old(transform), Resolve(arg, defaults))]
      ensures rules == [] && transform == [TransformHeader]
    {
      var t := Resolve(arg, defaults);
      steps := steps + [StepBody(rules, transform, t)];
      rules := [];
      transform := [TransformHeader];
      self := this;
    }

    /**
     * Allocates the next key of this instance, records its number of steps,
     * inserts one rule per step at the front of the sheet, clears the steps
     * and returns the key.
     */
    method CreateAnimationData() returns (key: string)
      requires Valid()
      modifies this`animationMapCount, this`animationMap, this`steps, sheet
      ensures Valid()
      ensures key == Key(id, old(animationMapCount)) && key !in old(animationMap)
      ensures animationMapCount == old(animationMapCount) + 1
      ensures animationMap == old(animationMap)[key := |old(steps)|]
      ensures steps == []
      ensures sheet.rules == EmittedRules(key, old(steps), |old(steps)|) + old(sheet.rules)
      ensures sheet.mounted == (old(sheet.mounted) || |old(steps)| > 0)
    {
      FreshKey(id, animationMapCount);
      key := Key(id, animationMapCount);
      animationMapCount := animationMapCount + 1;
      var frozen := steps;
      animationMap := animationMap[key := |frozen|];
      EmitRules(key, frozen);
      steps := [];
    }

    /** The `forEach` of `createAnimationData`: one `styleSheet.add` per step, at index 0. */
    method EmitRules(key: string, frozen: seq<string>)
      modifies sheet
      ensures sheet.rules == EmittedRules(key, frozen, |frozen|) + old(sheet.rules)
      ensures sheet.mounted == (old(sheet.mounted) || |frozen| > 0)
    {
      ghost var before := sheet.rules;
      var index := 0;
      while index < |frozen|
        invariant 0 <= index <= |frozen|
        invariant sheet.rules == EmittedRules(key, frozen, index) + before
        invariant sheet.mounted == (old(sheet.mounted) || index > 0)
      {
        var rule := StepRule(key, index, frozen[index]);
        var inserted := sheet.Add(rule);
        InsertAtFront(EmittedRules(key, frozen, index) + before, rule);
        EmittedRulesNext(key, frozen, index, before);
        index := index + 1;
      }
    }

    method Export() returns (key: string)
      requires Valid()
      modifies this`animationMapCount, this`animationMap, this`steps, sheet
      ensures Valid()
      ensures key == Key(id, old(animationMapCount)) && key !in old(animationMap)
      ensures animationMapCount == old(animationMapCount) + 1
      ensures animationMap == old(animationMap)[key := |old(steps)|]
      ensures steps == []
      ensures sheet.rules == EmittedRules(key, old(steps), |old(steps)|) + old(sheet.rules)
      ensures sheet.mounted == (old(sheet.mounted) || |old(steps)| > 0)
    {
      key := CreateAnimationData();
    }

    // -------------------------------------------------------------------
    // Playback

    /**
     * The body of the transition-end listener for an event on `target`.
     * Once the element lacks the attribute being read, the handler reads
     * `data-animation` from then on.
     */
    method OnTransitionEnd(target: Element)
      requires Valid()
      modifies this`animAttr, target
      ensures Valid()
      ensures animAttr == if old(animAttr) in old(target.attrs) then old(animAttr) else DataAnimationAttr
      ensures old(animAttr) == DataAnimationAttr ==> animAttr == DataAnimationAttr
      ensures target.attrs == Playback(id, animationMap, animAttr, old(target.attrs))
    {
      if animAttr !in target.attrs {
        animAttr := DataAnimationAttr;
      }
      if animAttr !in target.attrs {
        return;
      }
      var animData := target.attrs[animAttr];
      match NextReaction(id, animationMap, animData)
      case Advance(next) =>
        target.attrs := target.attrs[animAttr := next];
        if animAttr == AnimationAttr {
          target.attrs := target.attrs[DataAnimationAttr := next];
        }
      case _ =>
    }
  }

  /** A declaration `property: value` is never the bare transform header. */
  lemma DeclNotHeader(property: string, value: string)
    ensures Decl(property, value) != TransformHeader
  {
    var d := Decl(property, value);
    assert d[|property| + 1] == ' ';
    assert forall k :: 0 <= k < |TransformHeader| ==> TransformHeader[k] != ' ';
  }
  /**
   * Every value an element passes through while an exported animation
   * plays, from step 0 onwards, is selected by one of the rules the export
   * inserted: after k events it shows step min(k, n-1), whose rule carries
   * that step's body.
   */
  lemma PlayedValueHasRule(id: nat, m: map<string, nat>, count: nat, steps: seq<string>, k: nat)
    requires Key(id, count) in m && m[Key(id, count)] == |steps| && |steps| > 0
    ensures var j := Min(k, |steps| - 1);
      && Play(id, m, Key(id, count), k) == StepValue(Key(id, count), j)
      && StepRule(Key(id, count), j, steps[j]) in EmittedRules(Key(id, count), steps, |steps|)
  {
    var key, n := Key(id, count), |steps|;
    var j := Min(k, n - 1);
    PlayTrace(id, m, count, 0, k);
    assert StepValue(key, 0) == key;
    EmittedRulesAt(key, steps, n);
    assert EmittedRules(key, steps, n)[n - 1 - j] == StepRule(key, j, steps[j]);
  }
}
