# Taro H5 animation polyfill, modelled in Dafny

This project models the `createAnimation` polyfill of Taro's H5 runtime. An
`Animation` instance collects transform functions (`rotate`, `translate`, ...)
and style rules (`opacity`, `width`, ...). `step()` freezes them into one
keyframe declaration block. `export()` gives the animation a key and inserts
one CSS rule per keyframe into a shared `<style>` sheet. A `transitionend`
handler then moves an element's `animation` / `data-animation` attribute from
one keyframe's selector value to the next.

Modules, following the program's structure:

- `Strings`: decimal rendering and parsing (`Number()` on strings), and the
  JavaScript `split`/`join` the key encoding relies on.
- `Values`: builder arguments (`Num | Str | Undefined`), `isNaN`, the unit
  suffix, `${a || 0}`, and the text of CSS calls and declarations.
- `Keys`: the key, step-value, selector and rule encoding shared by export
  and playback. Also holds the handler's pure decision (`NextReaction`), its
  effect on an attribute map (`Playback`) and the playback trace (`Play`).
- `Steps`: how `step()` assembles a keyframe body. Holds both the code as
  written and the corrected version (see Findings).
- `StyleSheets`: class `StyleSheet`, the shared sheet as a sequence of
  rules with insert-at-index.
- `Animations`: classes `ModuleScope` (the module-level `animId` counter
  and the shared sheet), `Element` (an attribute map) and `Animation`.

`Animation.Valid()` is the invariant that every builder method keeps:

- `transform` starts with the bare `transform:` header;
- no style rule is that header;
- the handler reads `animation` or `data-animation`;
- the keys of `animationMap` are exactly the keys allocated so far.

Builder methods declare in `modifies` the one field they change. That frame
guarantees they leave `steps`, `animationMap` and `animationMapCount` alone.

## Model

| member | source | states |
|---|---|---|
| Animations.ModuleScope.constructor | packages/taro-h5/src/api/ui/animation/index.ts:34-60 | Module state starts with `animId` 0 and a fresh, unmounted, empty sheet |
| Animations.Animation.constructor | packages/taro-h5/src/api/ui/animation/index.ts:74-89 | Takes id `++animId`, so ids strictly increase; defaults 400 / 0 / `linear` / `50% 50% 0`, unit `px`; empty rules and steps, transform is just the header, empty map, count 0, handler reads `animation` |
| Animations.Animation.SetDefault | packages/taro-h5/src/api/ui/animation/index.ts:127-129 | `DEFAULT` becomes exactly the four given timing values |
| Animations.Animation.TransformUnit | packages/taro-h5/src/api/ui/animation/index.ts:118-124 | Same length as the arguments; element i is argument i with the unit suffix when it is numeric, and the argument's own text when `isNaN` |
| Animations.Animation.Matrix | packages/taro-h5/src/api/ui/animation/index.ts:142-145 | Appends exactly `matrix(a, b, c, d, tx, ty)` to `transform` and returns the same instance |
| Animations.Animation.Matrix3d | packages/taro-h5/src/api/ui/animation/index.ts:147-150 | Appends exactly the 16-argument `matrix3d(...)` call and returns the same instance |
| Animations.Animation.Rotate | packages/taro-h5/src/api/ui/animation/index.ts:152-155 | Appends `rotate(<angle>deg)` and returns the same instance |
| Animations.Animation.Rotate3d | packages/taro-h5/src/api/ui/animation/index.ts:157-164 | Appends the `rotate3d` text of `Values.Rotate3d` and returns the same instance |
| Animations.Animation.RotateX | packages/taro-h5/src/api/ui/animation/index.ts:166-169 | Appends `rotateX(<angle>deg)` |
| Animations.Animation.RotateY | packages/taro-h5/src/api/ui/animation/index.ts:171-174 | Appends `rotateY(<angle>deg)` |
| Animations.Animation.RotateZ | packages/taro-h5/src/api/ui/animation/index.ts:176-179 | Appends `rotateZ(<angle>deg)` |
| Animations.Animation.Scale | packages/taro-h5/src/api/ui/animation/index.ts:181-184 | Appends `scale(x, y)` |
| Animations.Animation.Scale3d | packages/taro-h5/src/api/ui/animation/index.ts:186-189 | Appends `scale3d(x, y, z)` |
| Animations.Animation.ScaleX | packages/taro-h5/src/api/ui/animation/index.ts:191-194 | Appends `scaleX(s)` |
| Animations.Animation.ScaleY | packages/taro-h5/src/api/ui/animation/index.ts:196-199 | Appends `scaleY(s)` |
| Animations.Animation.ScaleZ | packages/taro-h5/src/api/ui/animation/index.ts:201-204 | Appends `scaleZ(s)` |
| Animations.Animation.Skew | packages/taro-h5/src/api/ui/animation/index.ts:206-209 | Appends `skew(x, y)`, with no unit added |
| Animations.Animation.SkewX | packages/taro-h5/src/api/ui/animation/index.ts:211-214 | Appends `skewX(angle)`, with no unit added |
| Animations.Animation.SkewY | packages/taro-h5/src/api/ui/animation/index.ts:216-219 | Appends `skewY(angle)`, with no unit added |
| Animations.Animation.Translate | packages/taro-h5/src/api/ui/animation/index.ts:221-225 | Appends `translate(x, y)`, each coordinate passed through the unit rule |
| Animations.Animation.Translate3d | packages/taro-h5/src/api/ui/animation/index.ts:227-233 | Appends `translate3d(x, y, z)`, each coordinate passed through the unit rule |
| Animations.Animation.TranslateX | packages/taro-h5/src/api/ui/animation/index.ts:235-239 | Appends `translateX(t)` with the unit rule |
| Animations.Animation.TranslateY | packages/taro-h5/src/api/ui/animation/index.ts:241-245 | Appends `translateY(t)` with the unit rule |
| Animations.Animation.TranslateZ | packages/taro-h5/src/api/ui/animation/index.ts:247-251 | Appends `translateZ(t)` with the unit rule |
| Animations.Animation.Opacity | packages/taro-h5/src/api/ui/animation/index.ts:253-256 | Appends exactly `opacity: <value>` to `rules`, keeps the invariant, returns the same instance |
| Animations.Animation.BackgroundColor | packages/taro-h5/src/api/ui/animation/index.ts:258-261 | Appends `background-color: <value>` |
| Animations.Animation.Width | packages/taro-h5/src/api/ui/animation/index.ts:263-267 | Appends `width: <value>` with the unit rule |
| Animations.Animation.Height | packages/taro-h5/src/api/ui/animation/index.ts:269-273 | Appends `height: <value>` with the unit rule |
| Animations.Animation.Top | packages/taro-h5/src/api/ui/animation/index.ts:275-279 | Appends `top: <value>` with the unit rule |
| Animations.Animation.Right | packages/taro-h5/src/api/ui/animation/index.ts:281-285 | Appends `right: <value>` with the unit rule |
| Animations.Animation.Bottom | packages/taro-h5/src/api/ui/animation/index.ts:287-291 | Appends `bottom: <value>` with the unit rule |
| Animations.Animation.Left | packages/taro-h5/src/api/ui/animation/index.ts:293-297 | Appends `left: <value>` with the unit rule |
| Animations.Animation.Step | packages/taro-h5/src/api/ui/animation/index.ts:300-323 | Appends exactly one keyframe body, the corrected `Steps.StepBody` of the old rules, the old transform list and the options resolved over `DEFAULT`; afterwards `rules` is empty and `transform` is the single header |
| Animations.Animation.CreateAnimationData | packages/taro-h5/src/api/ui/animation/index.ts:326-341 | Returns `Key(id, old count)`, a key not allocated before; count goes up by one; map gains key ↦ number of steps; the sheet gains exactly the step rules in front of its old rules; `steps` becomes empty |
| Animations.Animation.EmitRules | packages/taro-h5/src/api/ui/animation/index.ts:331-336 | One `styleSheet.add` at index 0 per step leaves the emitted rules, last step first, in front of the old sheet; the sheet is mounted once any rule was added |
| Animations.Animation.Export | packages/taro-h5/src/api/ui/animation/index.ts:344-346 | Same effect and result as `CreateAnimationData` |
| Animations.Animation.OnTransitionEnd | packages/taro-h5/src/api/ui/animation/index.ts:91-115 | Switches to reading `data-animation` once the element lacks the attribute being read, and never switches back; attributes become `Playback` of the old ones |
| Animations.DeclNotHeader | packages/taro-h5/src/api/ui/animation/index.ts:253-297 | No style declaration is the bare transform header, so style methods keep the invariant |
| Animations.PlayedValueHasRule | packages/taro-h5/src/api/ui/animation/index.ts:91-115 | After k events starting at step 0, the element shows step min(k, n-1), and the export inserted that step's rule |
| Animations.Animation.PushTransform | packages/taro-h5/src/api/ui/animation/index.ts:142-251 | The one append shared by every transform method: `transform` gains exactly the given function text at its end, nothing else changes, and the invariant holds |
| Animations.Animation.PushRule | packages/taro-h5/src/api/ui/animation/index.ts:253-297 | The one append shared by every style method: `rules` gains exactly `property: value` at its end, nothing else changes, and the invariant holds |
| Animations.Element.constructor | packages/taro-h5/src/api/ui/animation/index.ts:92-96 | The event target is an element holding exactly the given attribute map |
| StyleSheets.StyleSheet.constructor | packages/taro-h5/src/api/ui/animation/index.ts:8-13 | A new sheet is unmounted and empty |
| StyleSheets.StyleSheet.AppendStyleSheet | packages/taro-h5/src/api/ui/animation/index.ts:14-18 | Afterwards the sheet is mounted |
| StyleSheets.StyleSheet.Add | packages/taro-h5/src/api/ui/animation/index.ts:25-31 | Mounts on first use; inserts the rule before `index` whenever `index <= length`, otherwise leaves the rules as they were; the sheet never shrinks |
| StyleSheets.InsertAt | packages/taro-h5/src/api/ui/animation/index.ts:30 | `insertRule(cssText, index)` on the rule list: the splice `rules[..index] + [cssText] + rules[index..]`, defined only for `index <= length`; its properties are `InsertAtShifts` and `InsertAtFront` |
| StyleSheets.InsertAtShifts | packages/taro-h5/src/api/ui/animation/index.ts:30 | Insertion adds exactly one rule at `index`: earlier rules stay put, later ones move back by one, and the multiset gains only the new rule |
| StyleSheets.InsertAtFront | packages/taro-h5/src/api/ui/animation/index.ts:25-30 | With the default index 0 the new rule comes first, followed by all old rules |
| Keys.Key | packages/taro-h5/src/api/ui/animation/index.ts:327 | The key `taro-h5-poly-fill/<id>/create-animation__<count>`; `SplitKey`, `KeyInjective` and `FreshKey` state what the handler and the map rely on |
| Keys.StepValue | packages/taro-h5/src/api/ui/animation/index.ts:332-334 | The attribute value of step i: the key itself for step 0, `key--i` otherwise; `SplitStepValue` and `SplitStepPath` show the handler reads it back |
| Keys.Selector | packages/taro-h5/src/api/ui/animation/index.ts:332-334 | The selector matching `animation` or `data-animation` equal to the step value |
| Keys.StepRule | packages/taro-h5/src/api/ui/animation/index.ts:332-335 | The rule text `<selector> { <body> }` inserted for one step; `EmittedRulesAt` places it in the sheet |
| Keys.EmittedRulesAt | packages/taro-h5/src/api/ui/animation/index.ts:331-336 | Exporting n steps yields exactly n rules, reversed by front insertion: the rule selecting step i's value and carrying its body sits at position n-1-i |
| Keys.FrontInsertedAt | packages/taro-h5/src/api/ui/animation/index.ts:335 | Inserting k rules one by one at the front reverses them: rule i ends at position k-1-i, and there are exactly k |
| Keys.SplitKey | packages/taro-h5/src/api/ui/animation/index.ts:99 | A key splits on `__` into exactly its namespace and its counter |
| Keys.SplitStepValue | packages/taro-h5/src/api/ui/animation/index.ts:99-101 | A step value `key--i` splits on `__` into the namespace and `count--i` |
| Keys.SplitStepPath | packages/taro-h5/src/api/ui/animation/index.ts:101 | `count--i` splits on `--` into the counter and the index |
| Keys.NamespaceInjective | packages/taro-h5/src/api/ui/animation/index.ts:100 | Different instance ids give different namespaces |
| Keys.KeyInjective | packages/taro-h5/src/api/ui/animation/index.ts:327 | Different (id, counter) pairs give different keys |
| Keys.FreshKey | packages/taro-h5/src/api/ui/animation/index.ts:327 | The next key is not among those already allocated, and allocating it adds exactly that key |
| Keys.NextReaction | packages/taro-h5/src/api/ui/animation/index.ts:99-113 | The handler's decision on one attribute value: ignore another instance's value, fault on the bare namespace, otherwise advance to step i+1 exactly when i is below the recorded count minus one; its properties are the `NextReaction...` lemmas |
| Keys.Playback | packages/taro-h5/src/api/ui/animation/index.ts:96-113 | The handler's effect on an element's attributes for one event; `PlaybackEffect`, `PlaybackAtStep`, `PlaybackForeign` and `PlaybackAbsentKey` state it |
| Keys.NextReactionAtStep | packages/taro-h5/src/api/ui/animation/index.ts:99-113 | At `key` or `key--i`, with n recorded for the key, the handler advances to `key--(i+1)` if and only if i < n-1, and otherwise does nothing |
| Keys.NextReactionOfParts | packages/taro-h5/src/api/ui/animation/index.ts:99-113 | Once a value splits into this namespace, a counter and an index that `Number` reads as i, the handler advances to `i+1` exactly when the rebuilt key is recorded with more than i+1 steps |
| Keys.NextReactionAbsentKey | packages/taro-h5/src/api/ui/animation/index.ts:104-106 | A key missing from the map is never advanced (the count reads as `undefined`) |
| Keys.NextReactionForeign | packages/taro-h5/src/api/ui/animation/index.ts:100 | Another instance's values are ignored |
| Keys.NextReactionBareNamespace | packages/taro-h5/src/api/ui/animation/index.ts:99-101 | A value equal to the bare namespace has no part after `__`, so the handler throws |
| Keys.PlayWithTrace | packages/taro-h5/src/api/ui/animation/index.ts:106-108 | A handler that walks one key's steps moves from step i to step min(i+k, n-1) in k events |
| Keys.PlayTrace | packages/taro-h5/src/api/ui/animation/index.ts:91-115 | An animation exported with n steps plays through exactly `key`, `key--1`, …, `key--(n-1)` and stays there |
| Keys.HandlerWalksSteps | packages/taro-h5/src/api/ui/animation/index.ts:99-113 | This instance's handler moves step j of any exported key to step j+1 while j+1 < n, and stops at the last step |
| Keys.PlaybackEffect | packages/taro-h5/src/api/ui/animation/index.ts:96-113 | A missing attribute or a non-advance changes nothing; an advance writes the next value, dual-writes `data-animation` when reading `animation`, and leaves every other attribute alone |
| Keys.PlaybackAtStep | packages/taro-h5/src/api/ui/animation/index.ts:106-113 | At step i the attribute read moves to step i+1 exactly when i < n-1, dual-written to `data-animation` when reading `animation`; at the last step the element is unchanged |
| Keys.PlaybackForeign | packages/taro-h5/src/api/ui/animation/index.ts:100 | An element showing another instance's animation is unchanged |
| Keys.PlaybackAbsentKey | packages/taro-h5/src/api/ui/animation/index.ts:104-106 | An element showing a key that was never exported is unchanged |
| Steps.ResolveFields | packages/taro-h5/src/api/ui/animation/index.ts:301-307 | Each timing field comes from `arg` when present and from `DEFAULT` otherwise; an empty `arg` gives `DEFAULT` |
| Steps.MarkImportant | packages/taro-h5/src/api/ui/animation/index.ts:311 | Every rule gets `!important` appended, keeping count and order |
| Steps.Filter | packages/taro-h5/src/api/ui/animation/index.ts:316 | No kept segment is empty or the dropped text, and the result is no longer than the input |
| Steps.FilterContents | packages/taro-h5/src/api/ui/animation/index.ts:316 | A segment is kept if and only if it occurs in the input and is neither `""` nor the dropped text; the result is a sub-multiset of the input, and each kept segment occurs as often as in the input |
| Steps.FilterConcat | packages/taro-h5/src/api/ui/animation/index.ts:316 | Filtering preserves order: filtering a concatenation is the concatenation of the filtered parts |
| Steps.FilterOne | packages/taro-h5/src/api/ui/animation/index.ts:316 | A single segment is kept exactly when it is neither `""` nor the dropped text |
| Steps.StepBodyAsWritten | packages/taro-h5/src/api/ui/animation/index.ts:309-317 | The keyframe body exactly as the source builds it, with the filter comparing against `transform:`; `StepBodyAsWrittenShape` states its form |
| Steps.StepBody | packages/taro-h5/src/api/ui/animation/index.ts:309-317 | The corrected keyframe body, with the filter comparing against the bare transform segment `transform:!important`; `StepBodyShape` states its form |
| Steps.StepBodyAsWrittenShape | packages/taro-h5/src/api/ui/animation/index.ts:309-317 | As written, the body joins with `;` the rules segment when there are rules, then the transform segment always, then origin and transition |
| Steps.StepBodyAgree | packages/taro-h5/src/api/ui/animation/index.ts:309-317 | Whenever a transform function was added, the body as written and the corrected body are equal |
| Steps.RulesSegmentNotHeader | packages/taro-h5/src/api/ui/animation/index.ts:311 | The rules segment is never the text `transform:`, so the filter as written never drops it |
| Steps.TransformSegmentNotHeader | packages/taro-h5/src/api/ui/animation/index.ts:312 | The transform segment always ends in `!important`, so it is neither `""` nor `transform:` and the filter as written never drops it |
| Steps.StepBodyShape | packages/taro-h5/src/api/ui/animation/index.ts:309-317 | The body joins with `;`: the rules segment when there are rules, the transform segment when a transform function was added, then origin and transition |
| Steps.StepBodyBare | packages/taro-h5/src/api/ui/animation/index.ts:309-317 | With no rules and no transform functions the body is only origin `;` transition |
| Steps.StepBodyAsWrittenKeepsHeader | packages/taro-h5/src/api/ui/animation/index.ts:309-317 | As written, an empty step still starts with `transform:!important`, so it differs from the intended body |
| Steps.TransformSegmentBare | packages/taro-h5/src/api/ui/animation/index.ts:312 | The transform segment is `transform:!important` exactly when no transform function was added |
| Steps.RulesSegmentEmpty | packages/taro-h5/src/api/ui/animation/index.ts:311 | The rules segment is empty exactly when there are no rules |
| Values.IsNaN | packages/taro-h5/src/api/ui/animation/index.ts:121 | `isNaN` on a builder argument: false for numbers, true for `undefined`, and for strings true exactly when `Number` cannot read them |
| Values.WithUnit | packages/taro-h5/src/api/ui/animation/index.ts:121 | One argument of `transformUnit`: its own text when `isNaN`, otherwise its text followed by the unit |
| Values.Rotate3d | packages/taro-h5/src/api/ui/animation/index.ts:157-163 | The `rotate3d` call text; `Rotate3dOneArg`, `Rotate3dFourArgs` and `Rotate3dDefaults` state its cases |
| Values.OrZero | packages/taro-h5/src/api/ui/animation/index.ts:161 | `undefined` and `""` give `0`; any other value gives its own text |
| Values.RenderAll | packages/taro-h5/src/api/ui/animation/index.ts:142-150 | Each argument becomes its own text, keeping count and order |
| Values.Rotate3dOneArg | packages/taro-h5/src/api/ui/animation/index.ts:158-159 | A non-number `y` gives `rotate3d(x)` |
| Values.Rotate3dFourArgs | packages/taro-h5/src/api/ui/animation/index.ts:160-161 | A number `y` gives `rotate3d(x, y, z, angledeg)`, with falsy `z` and `angle` read as 0 |
| Values.Rotate3dDefaults | packages/taro-h5/src/api/ui/animation/index.ts:157-161 | Missing `z` and `angle` give `, 0, 0deg` |
| Strings.ToNumber | packages/taro-h5/src/api/ui/animation/index.ts:102 | `Number()` on the step index text: `""` reads as 0, an optional sign and decimal digits read as that integer, anything else as NaN; `NatToStringRoundTrip` and `IntToStringRoundTrip` state that it reads back what was rendered |
| Strings.Split | packages/taro-h5/src/api/ui/animation/index.ts:99-101 | JavaScript `split` with a non-empty separator: at least one piece; `JoinSplit` states that the pieces rebuild the string |
| Strings.Join | packages/taro-h5/src/api/ui/animation/index.ts:311-317 | JavaScript `join`: `""` for no parts, the parts separated by `sep` otherwise |
| Strings.NatToStringRoundTrip | packages/taro-h5/src/api/ui/animation/index.ts:102-108 | `Number` reads back the rendered step index, so the handler recovers the index it wrote |
| Strings.IntToStringRoundTrip | packages/taro-h5/src/api/ui/animation/index.ts:102-108 | The same round trip for signed integers |
| Strings.NatToStringInjective | packages/taro-h5/src/api/ui/animation/index.ts:327 | Different counters render differently |
| Strings.JoinSplit | packages/taro-h5/src/api/ui/animation/index.ts:99-101 | Joining the pieces of a split with the same separator gives back the string |
| Strings.SplitAfterFree | packages/taro-h5/src/api/ui/animation/index.ts:99-101 | A string with no separator character, followed by the separator, splits off as the first piece |
| Strings.Find | packages/taro-h5/src/api/ui/animation/index.ts:99-101 | The result is the first match of the separator at or after `from`, or none when there is no match |

## Left out

- Vendor-prefix detection (lines 40-58): an environment probe. `TRANSFORM` is fixed to `transform` and the event name is not modelled.
- Creating and mounting the `<style>` element and the `insertRule` capability warning (lines 9-22). Mounting is a boolean flag.
- Adding the listener to `document.body` and the browser's transition timing (line 91). The handler body is the method `OnTransitionEnd`, called once per event on an explicit element.
- One listener per instance: each instance adds its own listener, so one event runs every live instance's handler. The model runs one instance's handler per call.
- JavaScript floating-point numbers and their rendering. Numeric arguments and timings are integers.
- `Number()` on strings is reduced to `""` (0) and an optional sign followed by decimal digits. Whitespace, fractions, exponents, hexadecimal and `Infinity` read as NaN.
- `isNaN` coercion of values other than numbers, strings and `undefined`, and `NaN` passed as a number.
- CSS parse errors raised by `insertRule` for malformed rule text.
- StyleSheets.StyleSheet.Add: an out-of-range index makes `insertRule` throw. The model returns `false` and leaves the sheet unchanged instead of propagating an exception. The only caller passes 0, which is always in range.
- Keys.NextReaction: the TypeError for a value equal to the bare namespace is the result `Fault`. The handler then changes nothing, as in the source, but the exception is not modelled.
- Animations.Animation.Step: appends the corrected body `Steps.StepBody`, not the body as written. As written, a step with no transform function also keeps the segment `transform:!important` (see Findings). `Steps.StepBodyAgree` shows the two bodies are equal whenever a transform function was added.
- The `createAnimation` wrapper and the `@tarojs/api` type import (lines 1, 350-352): a thin shim over the constructor.
- `packages/taro-router/src/animation.ts` is not part of this model: it is a fixed CSS template.
- Keys whose map lookup would hit an inherited JavaScript object property cannot arise: every key starts with the namespace.

On a value equal to the bare namespace the handler throws (line 101) rather than ignoring it; the model records this as `Fault`.

## Findings

| source | as written | input that shows it | evidently intended | confidence | as-written member | corrected member |
|---|---|---|---|---|---|---|
| packages/taro-h5/src/api/ui/animation/index.ts:309-317 | The filter drops `transform:`, but the transform segment is always built with `!important` appended, so it is never exactly `transform:` | `step()` with no transform function added: the body starts with `transform:!important;` | A step without transform functions carries no transform declaration, only the other segments | not executed | Steps.StepBodyAsWrittenKeepsHeader | Steps.StepBodyBare |

The corrected body, `Steps.StepBody`, drops `transform:!important` instead.
`Animations.Animation.Step` uses it. `Steps.StepBodyShape` gives its general form.
