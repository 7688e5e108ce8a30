/**
 * Arguments of the builder methods and the CSS text they become.
 * A JavaScript argument is a number, a string or `undefined`; numbers are
 * modelled as integers.
 */
module Values {
  import opened Strings

  datatype Arg = Num(n: int) | Str(s: string) | Undefined

  /** The text a template literal `${a}` gives. */
  function Render(a: Arg): string {
    match a
    case Num(n) => IntToString(n)
    case Str(s) => s
    case Undefined => "undefined"
  }

  /** `isNaN(a)`: `undefined` and strings that do not read as a number. */
  predicate IsNaN(a: Arg) {
    match a
    case Num(_) => false
    case Str(s) => ToNumber(s).None?
    case Undefined => true
  }

  /** One element of `transformUnit`: numeric values get the unit suffix. */
  function WithUnit(a: Arg, unit: string): string {
    if IsNaN(a) then Render(a) else Render(a) + unit
  }

  /** `${a || 0}`: the falsy values `undefined`, `0` and `""` give "0". */
  function OrZero(a: Arg): (s: string)
    ensures a.Undefined? || a == Str("") ==> s == "0"
    ensures !a.Undefined? && a != Str("") ==> s == Render(a)
  {
    if a.Undefined? || a == Str("") || a == Num(0) then "0" else Render(a)
  }

  function RenderAll(args: seq<Arg>): (r: seq<string>)
    ensures |r| == |args|
    ensures forall i :: 0 <= i < |args| ==> r[i] == Render(args[i])
  {
    if |args| == 0 then [] else [Render(args[0])] + RenderAll(args[1..])
  }

  /** The text of a CSS function call `name(a1, a2, ...)`. */
  function CssCall(name: string, args: seq<string>): string
  {
    name + "(" + Join(args, ", ") + ")"
  }

  /** The text of a style declaration `property: value`. */
  function Decl(property: string, value: string): string {
    property + ": " + value
  }

  /**
   * `rotate3d(x, y?, z?, angle?)`: a `y` that is not a number gives the
   * one-argument form; otherwise four arguments, with `z` and `angle`
   * falling back to 0 and the angle in degrees. (`${y || 0}` is just `y`
   * once `y` is a number.)
   */
  function Rotate3d(x: Arg, y: Arg, z: Arg, angle: Arg): string {
    if !y.Num? then CssCall("rotate3d", [Render(x)])
    else CssCall("rotate3d", [Render(x), Render(y), OrZero(z), OrZero(angle) + "deg"])
  }

  lemma Rotate3dOneArg(x: Arg, y: Arg, z: Arg, angle: Arg)
    requires !y.Num?
    ensures Rotate3d(x, y, z, angle) == "rotate3d(" + Render(x) + ")"
  {
  }

  lemma Rotate3dFourArgs(x: Arg, y: int, z: Arg, angle: Arg)
    ensures Rotate3d(x, Num(y), z, angle) ==
            "rotate3d(" + Render(x) + ", " + IntToString(y) + ", " + OrZero(z) + ", " + OrZero(angle) + "deg)"
  {
    var a, b, c, d := Render(x), IntToString(y), OrZero(z), OrZero(angle) + "deg";
    assert Rotate3d(x, Num(y), z, angle) == CssCall("rotate3d", [a, b, c, d]);
    CallFour("rotate3d", a, b, c, d);
    assert "rotate3d" + "(" == "rotate3d(";
  }

  /** Missing `z` and `angle` default to 0. */
  lemma Rotate3dDefaults(x: Arg, y: int)
    ensures Rotate3d(x, Num(y), Undefined, Undefined) ==
            "rotate3d(" + Render(x) + ", " + IntToString(y) + ", 0, 0deg)"
  {
    Rotate3dFourArgs(x, y, Undefined, Undefined);
  }

  lemma CallFour(name: string, a: string, b: string, c: string, d: string)
    ensures CssCall(name, [a, b, c, d]) == name + "(" + a + ", " + b + ", " + c + ", " + d + ")"
  {
    JoinFour(a, b, c, d, ", ");
  }

  lemma ConcatAssoc(a: string, b: string, c: string)
    ensures a + (b + c) == a + b + c
  {
  }

  lemma JoinFour(a: string, b: string, c: string, d: string, sep: string)
    ensures Join([a, b, c, d], sep) == a + sep + b + sep + c + sep + d
  {
    var l := [a, b, c, d];
    assert l[1..] == [b, c, d] && l[1..][1..] == [c, d] && l[1..][1..][1..] == [d];
    assert Join([c, d], sep) == c + sep + d;
    assert Join([b, c, d], sep) == b + sep + (c + sep + d);
    assert Join(l, sep) == a + sep + (b + sep + (c + sep + d));
    ConcatAssoc(a + sep, b + sep, c + sep + d);
    ConcatAssoc(a + sep + b, sep + c, sep + d);
  }
}
