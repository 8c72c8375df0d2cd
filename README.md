# Renderer3D in Dafny

A model of the three software 3D renderers of Renderer3D, a TypeScript library that draws shapes on an HTML canvas, and of the engine and games built on them.

- **The first renderer**:
  - `src/lib/Shape.ts` and `src/lib/Renderer.ts` draw a wireframe cube or pyramid.
  - Each point is turned about x, y and z, projected with the factor `1 / (distance - z)`, scaled and marked on the canvas.
  - One line is then stroked per edge.
- **The `Engine` renderer** (`src/lib/Engine/`):
  - It draws shapes made of points and triangles that index them.
  - It transforms the points into the world, keeps the triangles that face the camera and shades them.
  - It orders them back to front (the painter's algorithm), projects the points and fills each kept triangle.
  - The view it projects through is the transposed camera rows plus −M·pos (Mᵀp − M·pos for the camera rows M). Once the camera turns, this does not take the camera to the origin (see Findings).
  - The `Engine` class around it has a life cycle (`run`, `stop`), a frame throttle, a held-key registry (`Input`) and the games built on it (`Game`, `Showcase`, `ShowcaseGame`).
- **The `EngineUtils` renderer** (`src/lib/EngineUtils/`) works with 4-component vectors and 4x4 matrices:
  - It clips every triangle against the near plane and the four canvas edges before filling it.
  - Its clipper is proved to keep every corner on the inner side of the plane.
  - The screen-edge passes are proved to confine every drawn corner to the canvas.
- **Both `.obj` readers and the hex colour setter** are modelled with their error cases.

## Conventions

- **Numbers** are exact reals. Infinity and NaN are not modelled: division by zero (`JsNumber.Div`) gives 0, and every property about a quotient is stated for a non-zero divisor.
- **Math functions**:
  - `Math.sqrt`, `sin`, `cos`, `tan` and `PI` are the fields of a `MathLib` value passed as a parameter.
  - The one fact the proofs assume about them, a positive square root of a positive number, is the predicate `Lawful`.
- **Errors**:
  - A thrown error is a `Failure` of a `Result`, and an `undefined` read is a `None`.
  - The `console.error` of `setSize` and of the two hex-colour setters is returned as an `Option<string>`. The other logs are listed under "Left out".
- **The canvas** is a list of drawing calls (`Fill`, `Line`, `Mark`), emptied by `clear`.
- **Mutable objects** are classes whose methods state their whole new state. These are:
  - the shapes, the `{ x, y, z }` origin and rotation objects, the camera, the canvas, the renderers, the engine, the key registry and the games.
- **Loops** are methods whose postconditions tie them to a specification function. The properties are proved about that function.
- **Subclasses** of `Engine` are classes holding their engine.
- **Update listeners** are known by an identity, and their calls are recorded in order.
- **Bundled and loaded meshes**: the JSON meshes bundled with `src/lib/Engine/Shape.ts` are a parameter `meshes`, and so is the shape `Game.start` loads.
- **`Number(token)`** is a parameter `num`.
- **`Array.prototype.sort`** with a comparator `key(b) - key(a)` is a stable sort by non-increasing key (`DepthSort`), proved sorted, a permutation and stable.
- **Object identity**:
  - Map keys and `!==` on triangles are explicit identifiers.
  - Aliasing of the origin and rotation objects is kept: they are class instances shared by reference.
- **`toLowerCase`** changes only the ASCII letters A to Z.
- **`src/lib/Vector.ts`** repeats most of `src/lib/Engine/Vector.ts` unchanged:
  - the repeated functions are modelled once, in `Vec3`;
  - the functions that differ are in `BasicVector`.

## Model

| member | source | states |
|---|---|---|
| JsNumber.Div | src/lib/EngineUtils/Vector.ts:97-99 | for a non-zero divisor the quotient times the divisor is the dividend |
| JsNumber.Rem360 | src/lib/Showcase.ts:28-30 | `x % 360` lies strictly between −360 and 360, keeps the sign of x, and is x minus 360 times its truncated quotient |
| JsNumber.Max | src/lib/EngineUtils/Renderer.ts:90-97 | `Math.max` is at least both arguments and is one of them |
| JsNumber.FloorOf | src/lib/EngineUtils/Renderer.ts:90-97 | `Math.floor` of a defined number is the greatest integer not above it; of an undefined one it is undefined |
| JsNumber.OrDefault | src/lib/EngineUtils/Vector.ts:22-29 | `value \|\| default`: the result is the value or the default and nothing else, and it is never 0 (falsy) when the default is not |
| JsString.Split | src/lib/EngineUtils/Shape.ts:113 | `split` always yields at least one part |
| JsString.JoinSplit | src/lib/EngineUtils/Shape.ts:113 | joining the parts of a split with the separator gives the text back |
| JsString.SplitPiecesFree | src/lib/EngineUtils/Shape.ts:113 | no part of a split contains the separator |
| JsString.SplitJoin | src/lib/EngineUtils/Shape.ts:113 | splitting parts joined with a separator none of them contains gives the parts back |
| JsString.IndexOf | src/lib/EngineUtils/Shape.ts:118 | −1 exactly when the character is absent; otherwise the position of its first occurrence |
| JsString.Substring | src/lib/EngineUtils/Shape.ts:119-120 | within bounds the slice between the indices; indices at or below 0 clamp to the start and past the length to the end |
| JsString.LowerChar | src/lib/Engine/Input.ts:20 | an upper-case ASCII letter becomes lower case; every other character is kept |
| JsString.ToLower | src/lib/Engine/Input.ts:20 | same length; no capital letter A to Z is left, each capital becomes the same letter in lower case and every other character is kept (lowering twice changes nothing: `JsString.ToLowerIdempotent`) |
| JsString.ToLowerIdempotent | src/lib/Engine/Input.ts:55-58 | lowering twice is lowering once |
| JsString.KeepOnly | src/lib/EngineUtils/Shape.ts:124 | the result holds only kept characters, is no longer than the input, and is the input when it has only kept characters |
| JsString.NonEmpty | src/lib/EngineUtils/Shape.ts:125 | exactly the non-empty parts survive the filter |
| ShapeCommon.Coords.constructor | src/lib/EngineUtils/Shape.ts:47-51 | a fresh `{ x, y, z }` object with the given components |
| ShapeCommon.HexDigit | src/lib/EngineUtils/Shape.ts:84-86 | a hexadecimal digit in either case has a value below 16; every other character has none |
| ShapeCommon.TrimStart | src/lib/EngineUtils/Shape.ts:84-86 | `parseInt` skips leading white space (the ASCII spaces, line terminators, no-break and byte-order-mark spaces and every Unicode space separator): what is left is no longer and does not start with one |
| ShapeCommon.TrimStartSuffix | src/lib/EngineUtils/Shape.ts:84-86 | what is left after the skip is a suffix of the string, and everything cut off is white space |
| ShapeCommon.SpaceSkipped | src/lib/EngineUtils/Shape.ts:84-86 | a white-space character in front of a number does not change what `parseInt(…, 16)` reads |
| ShapeCommon.SingleDigit | src/lib/EngineUtils/Shape.ts:84-86 | one hexadecimal digit reads as its value |
| ShapeCommon.IdeographicSpaceSkipped | src/lib/EngineUtils/Shape.ts:84-86 | the ideographic space U+3000, a space separator, is skipped: `"\u3000F"` reads as 15 |
| ShapeCommon.ParseHex | src/lib/EngineUtils/Shape.ts:84-86 | `Number.parseInt(s, 16)`: leading white space skipped, an optional sign, an optional `0x`, then the longest run of hexadecimal digits, or NaN when there is none |
| ShapeCommon.ColorFromHex | src/lib/EngineUtils/Shape.ts:77-88 | `setColor`: a string that is not 7 characters long keeps the old colour; otherwise the colour records that string and its channels are the hexadecimal readings of characters 1-2, 3-4 and 5-6 |
| ShapeCommon.HexRun | src/lib/EngineUtils/Shape.ts:84-86 | `parseInt` reads the longest prefix of hexadecimal digits |
| ShapeCommon.HexPair | src/lib/EngineUtils/Shape.ts:84-86 | two hexadecimal digits parse to 16 times the first plus the second, a value from 0 to 255 |
| ShapeCommon.HexChar | src/lib/EngineUtils/Shape.ts:84-86 | the digit written for a value below 16 parses back to that value |
| ShapeCommon.Hex2 | src/lib/EngineUtils/Shape.ts:84-86 | a value below 256 is written as two digits |
| ShapeCommon.Hex2RoundTrip | src/lib/EngineUtils/Shape.ts:84-86 | a value below 256 written as two digits parses back to itself |
| ShapeCommon.ColorRejectsLength | src/lib/EngineUtils/Shape.ts:78-81 | a string whose length is not 7 leaves the colour unchanged |
| ShapeCommon.HexPairAt | src/lib/EngineUtils/Shape.ts:84-86 | the two digits at a position of the string parse to their value, from 0 to 255 |
| ShapeCommon.ChannelAt | src/lib/EngineUtils/Shape.ts:82-87 | in a 7-character string, channel r, g or b is the value of the digit pair at 1–2, 3–4 or 5–6, from 0 to 255 |
| ShapeCommon.ColorRoundTrip | src/lib/EngineUtils/Shape.ts:77-88 | setting the colour `#rrggbb` written from three values below 256 stores the string and reads back exactly those values |
| ShapeCommon.LineHeadParts | src/lib/EngineUtils/Shape.ts:118-120 | a line with a space is its keyword, one space and its data, and the keyword holds no space; a line without a space has an empty keyword and is all data |
| UtilsVector.MakeVector | src/lib/EngineUtils/Vector.ts:22-29 | a given non-zero component is kept; a missing x, y or z is 0; a missing or zero w is 1 |
| UtilsVector.Xyz | src/lib/EngineUtils/Vector.ts:22-29 | building from x, y, z alone gives those components and w = 1 |
| UtilsVector.At | src/lib/EngineUtils/Vector.ts:43-46 | `array[i]`: the element, or `undefined` past the end; what it reads is stated by `UtilsVector.ArrayToVector` and `UtilsVector.VectorArrayRoundTrip` |
| UtilsVector.ArrayToVector | src/lib/EngineUtils/Vector.ts:36-48 | fails exactly for more than four elements; otherwise builds the vector from the first four elements, missing ones defaulted |
| UtilsVector.VectorToArray | src/lib/EngineUtils/Vector.ts:55-57 | `[x, y, z, w]`; its partner is `arrayToVector`, and `UtilsVector.ArrayRoundTrip` and `UtilsVector.VectorArrayRoundTrip` prove the round trips |
| UtilsVector.ArrayRoundTrip | src/lib/EngineUtils/Vector.ts:36-57 | converting a vector to an array and back never fails, and gives the vector back exactly when w is not 0; a zero w comes back as 1 |
| UtilsVector.VectorArrayRoundTrip | src/lib/EngineUtils/Vector.ts:36-57 | a four-element array with non-zero last element survives conversion to a vector and back |
| UtilsVector.Add | src/lib/EngineUtils/Vector.ts:65-67 | the sum always has w = 1 |
| UtilsVector.Subtract | src/lib/EngineUtils/Vector.ts:77-79 | the difference always has w = 1 |
| UtilsVector.Multiply | src/lib/EngineUtils/Vector.ts:87-89 | the scaled vector always has w = 1 |
| UtilsVector.Divide | src/lib/EngineUtils/Vector.ts:97-99 | the divided vector always has w = 1 |
| UtilsVector.AddSubtractInverse | src/lib/EngineUtils/Vector.ts:65-79 | subtracting b after adding it, or adding it after subtracting it, gives back x, y, z, with w reset to 1 |
| UtilsVector.MultiplyDivideInverse | src/lib/EngineUtils/Vector.ts:87-99 | dividing by a non-zero number undoes multiplying by it, with w reset to 1 |
| UtilsVector.DotSymmetric | src/lib/EngineUtils/Vector.ts:156-158 | the dot product does not depend on the order of its factors |
| UtilsVector.Cross | src/lib/EngineUtils/Vector.ts:128-134 | the cross product has w = 1 |
| UtilsVector.CrossOrthogonal | src/lib/EngineUtils/Vector.ts:128-134 | the cross product is orthogonal to both factors |
| UtilsVector.Normalise | src/lib/EngineUtils/Vector.ts:115-118 | the normalised vector has w = 1 |
| UtilsVector.NormaliseIsScale | src/lib/EngineUtils/Vector.ts:106-118 | with a square root that is positive on positive numbers, a non-zero vector has positive length and normalising it scales it by 1 / length |
| UtilsVector.Scale | src/lib/EngineUtils/Vector.ts:87-89 | scaling x, y, z with w = 1 is `vectorMultiply` |
| UtilsVector.DotScale | src/lib/EngineUtils/Vector.ts:156-158 | scaling the second factor scales the dot product by the same number |
| UtilsVector.NormalOrthogonal | src/lib/EngineUtils/Vector.ts:143-148 | the cross product of the edges b − a and c − a is orthogonal to both edges, and so is `vectorNormal`, the normalised one, whatever the `Math` functions are |
| UtilsVector.Identity | src/lib/EngineUtils/Vector.ts:295-302 | ones on the diagonal and zeros elsewhere |
| UtilsVector.Product | src/lib/EngineUtils/Vector.ts:329-339 | entry (r, c) of the product is row r of the first matrix times column c of the second |
| UtilsVector.MatrixMatrixMultiply | src/lib/EngineUtils/Vector.ts:329-339 | the nested loops over a fresh matrix compute the matrix product |
| UtilsVector.ProductIdentity | src/lib/EngineUtils/Vector.ts:295-339 | the identity is neutral on both sides of the product |
| UtilsVector.IdentityVector | src/lib/EngineUtils/Vector.ts:295-321 | `vectorMatrixMultiply` by the identity leaves a vector unchanged |
| UtilsVector.ProductApplies | src/lib/EngineUtils/Vector.ts:310-339 | `vectorMatrixMultiply` by a `matrixMatrixMultiply` product is multiplying by its factors in turn, first one first |
| UtilsVector.Translation | src/lib/EngineUtils/Vector.ts:346-353 | the last row holds the offset x, y, z and 1 |
| UtilsVector.TranslationApplies | src/lib/EngineUtils/Vector.ts:310-353 | `vectorMatrixMultiply` by a translation adds w times the offset to x, y and z and keeps w |
| UtilsVector.Rotation | src/lib/EngineUtils/Vector.ts:361-386 | a rotation has no translation row and no projective column |
| UtilsVector.PointAt | src/lib/EngineUtils/Vector.ts:395-407 | the third row is the normalised direction to the target, the last row the position, and the first three rows end in 0 |
| UtilsVector.Row | src/lib/EngineUtils/Vector.ts:414-427 | a four-element row read back with `arrayToVector` never fails and keeps x, y, z |
| UtilsVector.Inverse | src/lib/EngineUtils/Vector.ts:414-427 | the 3x3 part is transposed, the last column is 0, 0, 0, 1, and the last row holds minus the dot product of the translation row with each rotation row |
| UtilsVector.InverseTranslation | src/lib/EngineUtils/Vector.ts:346-427 | inverting a translation gives the translation by the opposite offset |
| UtilsVector.InverseUndoesRigid | src/lib/EngineUtils/Vector.ts:414-427 | a matrix with orthonormal rotation rows and no projective column times its inverse is the identity |
| UtilsVector.Projection | src/lib/EngineUtils/Vector.ts:437-447 | the projected w of every vector is minus its z |
| UtilsShape.Shape.constructor | src/lib/EngineUtils/Shape.ts:42-71 | a new shape holds the given triangles, at the origin, not rotated, size 100 and white, with separate origin and rotation objects |
| UtilsShape.Shape.SetColor | src/lib/EngineUtils/Shape.ts:77-88 | the colour becomes the one read from the string; for a length other than 7 it is kept and `Not proper hex string was provided` is logged with the string; origin, rotation and size do not change |
| UtilsShape.CopyShapeParams | src/lib/EngineUtils/Shape.ts:97-102 | the target takes the size and colour and shares the origin and rotation objects of the source |
| ShapeCommon.Indexed | src/lib/EngineUtils/Shape.ts:152-154 | `points[i]` with a number index: the point for a whole index within the list, otherwise `undefined`; `UtilsShape.Resolve`, `UtilsShape.FacePartLookup` and `UtilsShape.ResolveFirst` state what the face lookup gives |
| UtilsShape.Resolve | src/lib/EngineUtils/Shape.ts:152-154 | one triangle per face, each corner the point its index looks up |
| UtilsShape.FailureSticks | src/lib/EngineUtils/Shape.ts:114-150 | once a line throws, the lines after it do not change the outcome |
| UtilsShape.ReadStep | src/lib/EngineUtils/Shape.ts:114-150 | reading one more line applies that line to what was read so far |
| UtilsShape.LineEffect | src/lib/EngineUtils/Shape.ts:117-149 | a line throws exactly when it is a `v` line without three numeric tokens or an `f` line without three parts, the error naming its line; otherwise a `v` line adds one point, an `f` line one face, and any other line nothing |
| UtilsShape.ParseToShape | src/lib/EngineUtils/Shape.ts:109-157 | the loop over the lines succeeds exactly when the reading function does, builds a fresh default shape with the resolved triangles, or reports the same error |
| ShapeCommon.KindLines | src/lib/EngineUtils/Shape.ts:117-121 | the lines of one keyword, in order, each non-empty with that keyword |
| UtilsShape.ReadLinesErrors | src/lib/EngineUtils/Shape.ts:114-150 | reading succeeds exactly when every line is acceptable; a failure names the first unacceptable line |
| UtilsShape.EarlierError | src/lib/EngineUtils/Shape.ts:114-150 | an error before the last line is the error of the whole text, and every line before it is acceptable |
| UtilsShape.LastLineError | src/lib/EngineUtils/Shape.ts:114-150 | when all lines but the last read cleanly, the whole succeeds exactly when all lines are acceptable, and a failure names the last line |
| UtilsShape.ReadPoints | src/lib/EngineUtils/Shape.ts:121-135 | one point per `v` line, in text order, each built from that line's three tokens |
| UtilsShape.ReadFaces | src/lib/EngineUtils/Shape.ts:136-148 | one face per `f` line, in text order, each from that line's three parts |
| UtilsShape.ParseFaces | src/lib/EngineUtils/Shape.ts:152-156 | one triangle per `f` line, each corner the point its one-based index names among all the points of the text |
| UtilsShape.FacePartLookup | src/lib/EngineUtils/Shape.ts:144-146 | a face part whose text before the first `/` reads as n + 1 looks up point n |
| UtilsShape.VertexTokensJoin | src/lib/EngineUtils/Shape.ts:122-125 | non-empty numeric tokens joined with spaces are read back as exactly those tokens |
| JsString.NonEmptyAll | src/lib/EngineUtils/Shape.ts:125 | a list with no empty part passes the filter unchanged |
| UtilsShape.TwoLines | src/lib/EngineUtils/Shape.ts:113 | two lines joined by a newline split back into those two lines |
| UtilsShape.ForwardReference | src/lib/EngineUtils/Shape.ts:152-156 | an `f` line naming vertex 1 before the `v` line that defines it still resolves to that point |
| UtilsShape.FaceAlone | src/lib/EngineUtils/Shape.ts:136-148 | a single acceptable `f` line reads as one face and no points |
| UtilsShape.ResolveFirst | src/lib/EngineUtils/Shape.ts:152-154 | a face of zero indices over one point is that point three times |
| UtilsShape.ReadLine | src/lib/EngineUtils/Shape.ts:117-149 | one line of the `.obj` loop applied to the points and triangles read so far, or its throw |
| UtilsShape.ReadLines | src/lib/EngineUtils/Shape.ts:114-150 | the loop over the lines: each applied in turn, the first throw ending it |
| UtilsShape.Parse | src/lib/EngineUtils/Shape.ts:109-157 | `parseToShape`: the text split into lines and read, giving the triangles with the points resolved, or the throw |
| UtilsClipper.DistanceIsSide | src/lib/EngineUtils/Vector.ts:199-203 | the clipper's distance function is the dot product of the point with the normal minus that of the plane point |
| UtilsClipper.IntersectPlane | src/lib/EngineUtils/Vector.ts:168-182 | the intersection point has w = 1 |
| UtilsClipper.InsidePoints | src/lib/EngineUtils/Vector.ts:205-215 | the inside list holds only corners of the triangle, each at distance ≥ 0 |
| UtilsClipper.OutsidePoints | src/lib/EngineUtils/Vector.ts:205-215 | the outside list holds only corners at negative distance, and the two lists together hold as many points as the triangle |
| UtilsClipper.Clip | src/lib/EngineUtils/Vector.ts:191-268 | clipping one triangle never yields more than two triangles, and the final throw is never reached |
| UtilsClipper.TriangleClippingAgainstPlane | src/lib/EngineUtils/Vector.ts:191-268 | the loop that sorts the corners into inside and outside lists, followed by the case analysis, returns exactly `Clip` |
| UtilsClipper.IntersectDot | src/lib/EngineUtils/Vector.ts:168-182 | the intersection point lies on the segment from start to end at the computed ratio |
| UtilsClipper.Lerp | src/lib/EngineUtils/Vector.ts:178-181 | dotting start + (end − start)·t with a vector interpolates the two dot products |
| UtilsClipper.SideScale | src/lib/EngineUtils/Vector.ts:199-203 | scaling the normal by a positive number scales the signed side and keeps its sign and its zeros |
| UtilsClipper.NormalisedSide | src/lib/EngineUtils/Vector.ts:196-203 | the normalised normal is non-zero and puts every point on the same side of the plane, and on it exactly when the given normal does |
| UtilsClipper.IntersectOnPlane | src/lib/EngineUtils/Vector.ts:168-182 | for a start inside and an end outside, the denominator is non-zero, the ratio lies in [0, 1] and the intersection point lies on the plane |
| UtilsClipper.IntersectInside | src/lib/EngineUtils/Vector.ts:168-182 | the intersection point of an inside start and an outside end lies in the clipping half-space, and in any other half-space that holds both ends |
| UtilsClipper.ClipInside | src/lib/EngineUtils/Vector.ts:191-268 | every vertex of every output triangle lies in the closed half-space of the plane, and in any half-space that held the whole input triangle |
| UtilsClipper.ClipOneInside | src/lib/EngineUtils/Vector.ts:233-249 | with one inside corner, the new triangle's vertices lie in the clipping half-space and in any half-space holding the input |
| UtilsClipper.ClipTwoInside | src/lib/EngineUtils/Vector.ts:251-265 | with two inside corners, both new triangles' vertices lie in the clipping half-space and in any half-space holding the input |
| UtilsClipper.VertexSides | src/lib/EngineUtils/Vector.ts:205-215 | every inside corner lies in the clipping half-space |
| UtilsClipper.InsideAll | src/lib/EngineUtils/Vector.ts:228-231 | when all three corners are inside, the inside list is the triangle itself, in order |
| UtilsClipper.ClipCases | src/lib/EngineUtils/Vector.ts:217-265 | no inside corner gives no triangle and only then; three give the same triangle; one gives one triangle starting at it; two give `[in0, in1, i1]` and `[in1, i1, i2]` with the inside corners in original order |
| UtilsClipper.ClipTriangleArray | src/lib/EngineUtils/Vector.ts:276-288 | the nested loops return the in-order concatenation of the clip results of every triangle |
| UtilsClipper.FlatMapMembers | src/lib/EngineUtils/Vector.ts:276-288 | a triangle is in the result exactly when it comes from clipping some input triangle |
| UtilsClipper.FlatMapLength | src/lib/EngineUtils/Vector.ts:276-288 | when no clip yields more than k triangles, the result has at most k per input triangle |
| UtilsClipper.ClipArrayLength | src/lib/EngineUtils/Vector.ts:276-288 | clipping an array against a plane at most doubles its length |
| DepthSort.Insert | src/lib/EngineUtils/Renderer.ts:256-260 | inserting one element makes the list one longer |
| DepthSort.SortDesc | src/lib/EngineUtils/Renderer.ts:256-260 | sorting keeps the length |
| DepthSort.InsertPerm | src/lib/EngineUtils/Renderer.ts:256-260 | inserting adds exactly that element to the multiset |
| DepthSort.InsertSorted | src/lib/EngineUtils/Renderer.ts:256-260 | inserting into a list sorted by non-increasing key keeps it sorted |
| DepthSort.ConsSorted | src/lib/EngineUtils/Renderer.ts:256-260 | a head with key at least every key of a sorted tail gives a sorted list |
| DepthSort.SortDescCorrect | src/lib/EngineUtils/Renderer.ts:256-260 | the comparator `zB − zA` orders the triangles by non-increasing z-sum, and the result is a permutation of the input |
| DepthSort.WithKey | src/lib/EngineUtils/Renderer.ts:256-260 | the elements of one key, in their order: no more than there are elements, and all of that key |
| DepthSort.WithKeyAppend | src/lib/EngineUtils/Renderer.ts:256-260 | appending an element adds it to the elements of its own key and to no other |
| DepthSort.WithKeyNone | src/lib/EngineUtils/Renderer.ts:256-260 | a list whose keys are all below k has no element of key k |
| DepthSort.InsertFront | src/lib/EngineUtils/Renderer.ts:256-260 | when the inserted element's key is larger than the head's, the elements of each key are the old ones followed, for its own key, by the inserted element |
| DepthSort.InsertStable | src/lib/EngineUtils/Renderer.ts:256-260 | inserting into a sorted list places the element after every element of its key already there |
| DepthSort.SortDescStable | src/lib/EngineUtils/Renderer.ts:256-260 | the sort is stable, as `Array.prototype.sort` is required to be: the elements of each key keep their input order |
| DepthSort.InsertDistinct | src/lib/EngineUtils/Renderer.ts:256-260 | inserting an element whose identity is new keeps identities distinct |
| DepthSort.SortDescDistinct | src/lib/EngineUtils/Renderer.ts:256-260 | sorting keeps identities distinct |
| DepthSort.FrontDistinct | src/lib/EngineUtils/Renderer.ts:256-260 | dropping the last element keeps identities distinct |
| DepthSort.SortDescMember | src/lib/EngineUtils/Renderer.ts:256-260 | every element of the sorted list was in the input |
| DepthSort.InsertMember | src/lib/EngineUtils/Renderer.ts:256-260 | every element after an insertion is the inserted one or was there before |
| UtilsPieces.InCanvasBounds | src/lib/EngineUtils/Renderer.ts:293-320 | the four edge half-spaces together are exactly `0 ≤ x ≤ width − 1` and `0 ≤ y ≤ height − 1` |
| UtilsPieces.InCanvasOnScreen | src/lib/EngineUtils/Renderer.ts:293-320 | a point inside the four edge half-spaces is on the canvas |
| UtilsPieces.OnScreenInCanvas | src/lib/EngineUtils/Renderer.ts:293-320 | a point on the canvas is inside the four edge half-spaces |
| UtilsPieces.AxisLengths | src/lib/EngineUtils/Renderer.ts:293-320 | the four edge normals are non-zero |
| UtilsPieces.YEdge | src/lib/EngineUtils/Renderer.ts:293-306 | the half-space of a horizontal edge with normal ±y is `±y ≥ ±y0` |
| UtilsPieces.XEdge | src/lib/EngineUtils/Renderer.ts:307-320 | the half-space of a vertical edge with normal ±x is `±x ≥ ±x0` |
| UtilsPieces.ClipPiece | src/lib/EngineUtils/Vector.ts:191-268 | clipping a piece gives one piece per clipped triangle, in order |
| UtilsPieces.ClipPieceIdentity | src/lib/EngineUtils/Vector.ts:228-231 | a triangle wholly inside comes back as the very same piece; every other result is a new triangle |
| UtilsPieces.FlatMapIsPass | src/lib/EngineUtils/Renderer.ts:293-320 | `clipTriangleArray` with a plane clip is one clipping pass over the pieces |
| UtilsPieces.ClipPassIn | src/lib/EngineUtils/Renderer.ts:293-320 | after a pass every corner lies in the pass's half-space, and in any half-space every input corner lay in |
| UtilsPieces.FourPasses | src/lib/EngineUtils/Renderer.ts:293-320 | after four passes every corner lies in all four half-spaces |
| UtilsPieces.EdgeClipInCanvas | src/lib/EngineUtils/Renderer.ts:293-320 | after the four edge passes every corner lies inside the four edge half-spaces |
| UtilsPieces.EdgeClipOnScreen | src/lib/EngineUtils/Renderer.ts:293-320 | after the four edge passes every drawn corner satisfies `0 ≤ x ≤ width − 1` and `0 ≤ y ≤ height − 1` |
| UtilsPipeline.LightFactor | src/lib/EngineUtils/Renderer.ts:91-92 | the shading factor is at least 0.1 and at least the dot product of the normal with `(0, 0.5, normal.z)`, and is one of the two |
| UtilsPipeline.ShadedChannel | src/lib/EngineUtils/Renderer.ts:93-95 | a non-negative channel shades to a defined integer between the floor of a tenth of it and the channel times the factor |
| UtilsPipeline.WorldApplies | src/lib/EngineUtils/Renderer.ts:194-209 | the world matrix turns a point about x, then y, then z, then moves it by the origin |
| UtilsPipeline.Apply | src/lib/EngineUtils/Renderer.ts:233-235 | transforming a triangle multiplies each of its three corners by the matrix |
| UtilsPipeline.Gather | src/lib/EngineUtils/Renderer.ts:231-253 | the kept triangles are in input order, each with a colour recorded, and colours are recorded only for input triangles |
| UtilsPipeline.Classified | src/lib/EngineUtils/Renderer.ts:231-253 | one classification per face, in order |
| UtilsPipeline.Select | src/lib/EngineUtils/Renderer.ts:231-253 | the selected triangles keep input order and each has its colour recorded |
| UtilsPipeline.GatherKeeps | src/lib/EngineUtils/Renderer.ts:231-253 | a triangle is kept, with its shaded colour recorded, exactly when its classification keeps it |
| UtilsPipeline.KeepsAppend | src/lib/EngineUtils/Renderer.ts:245-252 | keeping another triangle does not change what is recorded for an earlier one |
| UtilsPipeline.GatherKeepsLast | src/lib/EngineUtils/Renderer.ts:231-253 | the last triangle is kept exactly when its classification keeps it |
| UtilsPipeline.SelectClassified | src/lib/EngineUtils/Renderer.ts:231-253 | the selection keeps each face exactly as its own classification says |
| UtilsPipeline.CullRule | src/lib/EngineUtils/Renderer.ts:237-252 | a triangle is kept exactly when the dot product of its first world corner minus the camera position with its normal is ≤ 0; a kept triangle is moved to view space and gets its shaded colour |
| UtilsPipeline.SortedColors | src/lib/EngineUtils/Renderer.ts:256-264 | every sorted triangle still has its colour recorded, so the `'red'` fallback is never used |
| UtilsPipeline.NearClipDepth | src/lib/EngineUtils/Renderer.ts:268-284 | after the near clip every corner has z ≥ 1, so its projected w is ≤ −1 and the perspective divide never divides by zero |
| UtilsPipeline.ProjectVertexMaps | src/lib/EngineUtils/Renderer.ts:280-288 | a corner in front of the near plane is projected, divided by its w = −z, scaled by the size and moved to the canvas centre |
| UtilsPipeline.ProjectPiece | src/lib/EngineUtils/Renderer.ts:279-290 | projecting in place keeps a triangle's identity |
| UtilsPipeline.ProjectAll | src/lib/EngineUtils/Renderer.ts:279-290 | every clipped triangle is projected, in order |
| UtilsPipeline.PiecesOnScreen | src/lib/EngineUtils/Renderer.ts:323-339 | triangles with every corner on the canvas give only commands on the canvas |
| UtilsPipeline.PieceOnScreen | src/lib/EngineUtils/Renderer.ts:323-339 | a triangle with every corner on the canvas gives only commands on the canvas |
| UtilsPipeline.LitOnScreen | src/lib/EngineUtils/Renderer.ts:262-340 | everything drawn for one selected triangle lies on the canvas |
| UtilsPipeline.LitsOnScreen | src/lib/EngineUtils/Renderer.ts:262-340 | everything drawn for the sorted triangles lies on the canvas |
| UtilsPipeline.SceneOnScreen | src/lib/EngineUtils/Renderer.ts:175-341 | every command a successful `drawShape` issues lies within `0 ≤ x ≤ width − 1`, `0 ≤ y ≤ height − 1` |
| UtilsPipeline.PiecePaint | src/lib/EngineUtils/Renderer.ts:323-338 | a triangle is painted in its shaded colour, or green when clip debugging and it is new, with blue debug points; one still the selected triangle is always in its shaded colour |
| UtilsPipeline.PiecesPaint | src/lib/EngineUtils/Renderer.ts:323-338 | the same for all the triangles of one clip: triangles that all survived unchanged are drawn only in the shaded colour |
| UtilsPipeline.LitPaint | src/lib/EngineUtils/Renderer.ts:323-338 | with clip debugging off everything is drawn in the shaded colour, apart from blue debug points |
| UtilsPipeline.CalculateColor | src/lib/EngineUtils/Renderer.ts:90-97 | `calculateColor`: each channel times the lighting factor, floored |
| UtilsPipeline.NearClip | src/lib/EngineUtils/Renderer.ts:268-273 | the clip against the near plane through (0, 0, 1) facing +z |
| UtilsPipeline.ProjectVertex | src/lib/EngineUtils/Renderer.ts:280-288 | one corner: projected, divided by its w, scaled by the size, centred |
| UtilsPipeline.Scene | src/lib/EngineUtils/Renderer.ts:175-345 | `drawShape`: the commands drawn for the sorted kept triangles, or the error thrown before anything is drawn |
| UtilsRenderer.Camera.constructor | src/lib/EngineUtils/Renderer.ts:8-21 | a camera with the given position, look direction and yaw |
| UtilsRenderer.PoseOf | src/lib/EngineUtils/Renderer.ts:196-209 | what `drawShape` reads of a shape: its origin as a point, its three angles, its size and colour |
| UtilsRenderer.TransformCorners | src/lib/EngineUtils/Renderer.ts:233-235 | the loop overwrites the three corners of the copied triangle with the transformed ones |
| UtilsRenderer.ClassifiedStep | src/lib/EngineUtils/Renderer.ts:231-253 | one more pass of the triangle loop extends the selection by that triangle's classification |
| UtilsRenderer.ClassifyFace | src/lib/EngineUtils/Renderer.ts:233-252 | one pass of the triangle loop: transform, cull by the normal, shade, move to view space |
| UtilsRenderer.SelectTriangles | src/lib/EngineUtils/Renderer.ts:177-253 | the copy and triangle loop fails exactly when a face has an undefined corner, and otherwise yields the selection |
| UtilsRenderer.PiecesStep | src/lib/EngineUtils/Renderer.ts:323-339 | drawing one more clipped triangle appends its commands |
| UtilsRenderer.LitsStep | src/lib/EngineUtils/Renderer.ts:262-340 | drawing one more sorted triangle appends its commands |
| UtilsRenderer.AgreesSelf | src/lib/EngineUtils/Renderer.ts:262-265 | before any deletion the colour map agrees with the recorded colours |
| UtilsRenderer.AgreesRemove | src/lib/EngineUtils/Renderer.ts:264-265 | deleting a colour no later triangle uses keeps the map agreeing for the later triangles |
| UtilsRenderer.DistinctAfter | src/lib/EngineUtils/Renderer.ts:262-265 | no later sorted triangle is the current one |
| UtilsRenderer.AgreesNext | src/lib/EngineUtils/Renderer.ts:262-265 | reading then deleting the current triangle's colour gives the recorded colour and keeps the map agreeing for the rest |
| UtilsRenderer.CameraView | src/lib/EngineUtils/Renderer.ts:184-191 | the look direction is (0, 0, 1) turned by the yaw about y, and the view matrix is the inverse of the point-at matrix towards it |
| UtilsRenderer.LitDrawn | src/lib/EngineUtils/Renderer.ts:268-339 | a triangle wholly behind the near plane draws nothing; otherwise its near-clipped, projected and edge-clipped triangles are drawn |
| UtilsRenderer.CameraOf | src/lib/EngineUtils/Renderer.ts:184-191 | the camera step computes the look direction and view matrix |
| UtilsRenderer.SceneOutcome | src/lib/EngineUtils/Renderer.ts:175-341 | the steps of `drawShape` together succeed exactly when the scene does and append exactly its commands |
| UtilsRenderer.Renderer.constructor | src/lib/EngineUtils/Renderer.ts:63-81 | the renderer keeps the canvas and camera, with every debug switch off and a field of view of 10 |
| UtilsRenderer.Renderer.DrawPoint | src/lib/EngineUtils/Renderer.ts:106-112 | one dot in the colour appended |
| UtilsRenderer.Renderer.DrawLine | src/lib/EngineUtils/Renderer.ts:120-128 | one line in the colour appended |
| UtilsRenderer.Renderer.DrawTriangle | src/lib/EngineUtils/Renderer.ts:137-141 | the lines a–b, a–c and b–c appended |
| UtilsRenderer.Renderer.FillTriangle | src/lib/EngineUtils/Renderer.ts:151-169 | a fill appended, followed by the outline unless the wireframe switch is on |
| UtilsRenderer.Renderer.Clear | src/lib/EngineUtils/Renderer.ts:346-348 | the canvas holds nothing |
| UtilsRenderer.Renderer.DrawPiece | src/lib/EngineUtils/Renderer.ts:323-338 | one clipped triangle filled in its colour (green for a new one when clip debugging), plus blue corner points when that switch is on |
| UtilsRenderer.Renderer.DrawPieces | src/lib/EngineUtils/Renderer.ts:323-339 | the clipped triangles drawn in order |
| UtilsRenderer.Renderer.ProjectPieces | src/lib/EngineUtils/Renderer.ts:279-290 | the loop projects, divides, scales and centres every corner of every clipped triangle |
| UtilsRenderer.Renderer.EdgePasses | src/lib/EngineUtils/Renderer.ts:293-320 | the four `clipTriangleArray` calls give the top, bottom, left and right edge clip in that order |
| UtilsRenderer.Renderer.DrawLit | src/lib/EngineUtils/Renderer.ts:266-339 | one sorted triangle: near clip, skip when nothing is left, project, edge clip and draw |
| UtilsRenderer.Renderer.DrawNear | src/lib/EngineUtils/Renderer.ts:278-339 | the near-clipped triangles projected, edge clipped and drawn |
| UtilsRenderer.Renderer.DrawSorted | src/lib/EngineUtils/Renderer.ts:262-340 | the loop over the sorted triangles, reading and deleting each colour, draws each in its recorded colour |
| UtilsRenderer.Renderer.PointCamera | src/lib/EngineUtils/Renderer.ts:184-191 | the camera's look direction becomes (0, 0, 1) turned by the yaw; the view matrix is returned |
| UtilsRenderer.Renderer.WorldOf | src/lib/EngineUtils/Renderer.ts:194-209 | the world matrix of the shape's rotation and origin |
| UtilsRenderer.Renderer.DrawSelected | src/lib/EngineUtils/Renderer.ts:231-340 | a face with an undefined corner throws before anything is drawn; otherwise the selection is sorted and drawn |
| UtilsRenderer.Renderer.DrawShape | src/lib/EngineUtils/Renderer.ts:175-341 | the look direction is set from the yaw; the call fails, drawing nothing, exactly when the scene does, and otherwise appends exactly the scene's commands; the shape's triangles are not changed |
| Vec3.AddSubtractInverse | src/lib/Engine/Vector.ts:5-11 | subtracting b after adding it, or adding it after subtracting it, gives the vector back |
| Vec3.MultiplyDivideInverse | src/lib/Engine/Vector.ts:13-19 | dividing by a non-zero number undoes multiplying by it |
| Vec3.NormaliseScales | src/lib/Engine/Vector.ts:21-28 | with a square root that is positive on positive numbers, a non-zero vector has positive length and normalising scales it by 1 / length |
| Vec3.DotSymmetric | src/lib/Engine/Vector.ts:60-62 | the dot product does not depend on the order of its arguments |
| Vec3.CrossOrthogonal | src/lib/Engine/Vector.ts:45-47 | the cross product is orthogonal to both factors |
| Vec3.NormalOrthogonal | src/lib/Engine/Vector.ts:49-58 | the normal before normalising is the cross product of b − a and c − a; it and the normalised normal are orthogonal to both edges |
| Vec3.DotScale | src/lib/Engine/Vector.ts:13-15 | scaling a factor scales the dot product |
| Vec3.RowSumDot | src/lib/Engine/Vector.ts:37-41 | the inner loop's sum over a whole row is the dot product of the row with the vector |
| Vec3.Transform | src/lib/Engine/Vector.ts:32-43 | applying a matrix succeeds exactly when it has three rows |
| Vec3.VectorMatrixMultiply | src/lib/Engine/Vector.ts:32-43 | throws exactly when the matrix does not have as many rows as the vector has components; otherwise component i is the sum over j of `matrix[i][j] * vector[j]` |
| Vec3.RotationRows | src/lib/Engine/Vector.ts:95-120 | a rotation is three rows |
| Vec3.RotateKeepsAxis | src/lib/Engine/Vector.ts:95-122 | turning about an axis keeps the component along that axis |
| Vec3.Project2dDivides | src/lib/Engine/Vector.ts:124-132 | for a non-zero z the projection is (x / z, y / z, z) |
| Vec3.PointAt | src/lib/Engine/Vector.ts:64-75 | `matrixPointAt` returns exactly three rows and no translation row |
| Vec3.PointAtRows | src/lib/Engine/Vector.ts:64-75 | the rows are right, up and forward: forward is the normalised direction to the target, right is up × forward, and right is orthogonal to up and forward |
| Vec3.InverseRotation | src/lib/Engine/Vector.ts:77-83 | the result is the transpose of the first three rows; fewer rows fail |
| Vec3.InverseRotationTwice | src/lib/Engine/Vector.ts:77-83 | transposing a three-row matrix twice gives it back |
| Vec3.InverseTranslation | src/lib/Engine/Vector.ts:85-91 | reading the three rows fails exactly when there are fewer than three |
| Vec3.InverseTranslationOffset | src/lib/Engine/Vector.ts:85-91 | applying the rows to q and adding the inverse translation of p is applying the rows to q − p |
| Vec3.DotSubtract | src/lib/Engine/Vector.ts:60-62 | the dot product distributes over subtraction |
| BasicVector.Multiply | src/lib/Vector.ts:13-15 | `vectorMultiply(a, b)`, the componentwise product; `BasicVector.MultiplyDivideInverse` and `BasicVector.MultiplyCommutes` state its properties |
| BasicVector.Divide | src/lib/Vector.ts:17-19 | for a non-zero divisor component, the quotient times it is the dividend component |
| BasicVector.MultiplyDivideInverse | src/lib/Vector.ts:13-19 | dividing componentwise by a vector with no zero component undoes multiplying by it |
| BasicVector.MultiplyCommutes | src/lib/Vector.ts:13-15 | the componentwise product does not depend on the order of its factors |
| BasicVector.ScaleIsScalarMultiply | src/lib/Vector.ts:87-90 | `vectorScale(v, m)` is `vectorMultiply(v, [m, m, m])`, every component multiplied by m |
| Vec3.Add | src/lib/Engine/Vector.ts:5-7 | `vectorAdd`: the component-wise sum |
| Vec3.Subtract | src/lib/Engine/Vector.ts:9-11 | `vectorSubtract`: the component-wise difference |
| Vec3.Multiply | src/lib/Engine/Vector.ts:13-15 | `vectorMultiply`: every component times the number |
| Vec3.Divide | src/lib/Engine/Vector.ts:17-19 | `vectorDevide`: every component divided by the number, 0 for a zero divisor |
| Vec3.Dot | src/lib/Engine/Vector.ts:60-62 | `vectorDotProduct`: the sum of the component products |
| Vec3.Cross | src/lib/Engine/Vector.ts:45-47 | `vectorCrossProduct`: the cross product of two vectors |
| Vec3.Normal | src/lib/Engine/Vector.ts:49-58 | `vectorNormal`: the cross product of the edges b − a and c − a, normalised |
| Vec3.Rotate | src/lib/Engine/Vector.ts:95-122 | `vectorRotate`: the rotation rows for the axis and the angle in degrees applied to the vector |
| Vec3.Project2d | src/lib/Engine/Vector.ts:124-132 | `vectorProject2d`: x and y times 1/z, z kept |
| EngineShape.Shape.constructor | src/lib/Engine/Shape.ts:63-98 | a new shape holds the given points and triangles, at origin (0, 0, 300), not rotated, size 100 and white, with separate origin and rotation objects |
| EngineShape.Shape.SetColor | src/lib/Engine/Shape.ts:104-115 | the colour becomes the one read from the string; for a length other than 7 it is kept and `Not proper hex string was provided` is logged with the string |
| EngineShape.CopyShapeParams | src/lib/Engine/Shape.ts:124-129 | the target takes the size and colour and shares the origin and rotation objects of the source |
| EngineShape.CreateShape | src/lib/Engine/Shape.ts:137-155 | a fresh shape of the named mesh's points and triangles, with the defaults when no shape is given and otherwise the given shape's size, colour, origin and rotation |
| EngineShape.FailureSticks | src/lib/Engine/Shape.ts:165-200 | once a line throws, the lines after it do not change the outcome |
| EngineShape.ReadStep | src/lib/Engine/Shape.ts:165-200 | reading one more line applies that line to what was read so far |
| EngineShape.LineEffect | src/lib/Engine/Shape.ts:168-199 | a line throws exactly when it is a `v` line without three non-empty tokens or an `f` line without three parts, the error naming its line; otherwise a `v` line adds one point, an `f` line one triangle, and any other line nothing |
| EngineShape.ReadInto | src/lib/Engine/Shape.ts:166-199 | one pass of the loop pushes onto the shape exactly what the line adds, or reports its error |
| EngineShape.ParseToShape | src/lib/Engine/Shape.ts:162-202 | the loop over the lines succeeds exactly when the reading function does, giving a fresh default shape with the points and triangles read; otherwise it reports the same error |
| EngineShape.ReadLinesErrors | src/lib/Engine/Shape.ts:165-200 | reading succeeds exactly when every line is acceptable; a failure names the first unacceptable line |
| EngineShape.EarlierError | src/lib/Engine/Shape.ts:165-200 | an error before the last line is the error of the whole text, and every line before it is acceptable |
| EngineShape.LastLineError | src/lib/Engine/Shape.ts:165-200 | when all lines but the last read cleanly, the whole succeeds exactly when all lines are acceptable, and a failure names the last line |
| EngineShape.ReadPoints | src/lib/Engine/Shape.ts:172-185 | one point per `v` line, in text order, each from that line's three tokens |
| EngineShape.ReadTriangles | src/lib/Engine/Shape.ts:186-198 | one triangle per `f` line, in text order, each holding the part numbers before the first `/` minus 1 |
| EngineShape.CutReturnPrefix | src/lib/Engine/Shape.ts:176 | a token is cut before its first carriage return, and a token without one is unchanged |
| EngineShape.CutReturnSuffix | src/lib/Engine/Shape.ts:176 | a trailing carriage return is cut off |
| EngineShape.VertexTokensJoin | src/lib/Engine/Shape.ts:173-176 | non-empty tokens joined with spaces read back as those tokens, each cut at its carriage return |
| EngineShape.FaceNotChecked | src/lib/Engine/Shape.ts:186-198 | an `f` line is accepted with whatever indices it names, even when no point has been read |
| EngineShape.ReadLine | src/lib/Engine/Shape.ts:168-199 | one line of the `.obj` loop applied to the points and triangles read so far, or its throw |
| EngineShape.ReadLines | src/lib/Engine/Shape.ts:165-200 | the loop over the lines: each applied in turn, the first throw ending it |
| EngineShape.Parse | src/lib/Engine/Shape.ts:162-202 | `parseToShape`: the text split into lines and read, giving the shape or the throw |
| EngineRenderer.Camera.constructor | src/lib/Engine/Renderer.ts:8-21 | a camera holds the given position, look direction and yaw |
| EngineRenderer.CalculateColor | src/lib/Engine/Renderer.ts:68-76 | every channel is shaded by the same factor, minus the normal's z component, since the light travels along negative z |
| EngineRenderer.ShadeBounds | src/lib/Engine/Renderer.ts:68-76 | a shaded channel is the floor of the channel times the factor, and it is non-negative exactly when the normal faces the viewer |
| EngineRenderer.ToScreen | src/lib/Engine/Renderer.ts:85-107 | where a camera-space point is drawn: x added to the centre, y subtracted from it; `EngineRenderer.ScreenFlipsY` states the flip, the order along x and the centre |
| EngineRenderer.ScreenFlipsY | src/lib/Engine/Renderer.ts:85-107 | a point higher in camera space is drawn nearer the top, one further right is drawn further right, and the camera axis lands on the centre |
| EngineRenderer.FillCommands | src/lib/Engine/Renderer.ts:129-140 | filling a triangle makes four calls, the first the fill in the triangle's colour |
| EngineRenderer.LookDirectionIs | src/lib/Engine/Renderer.ts:149-150 | the look direction is (0, 0, 1) turned by the yaw: (-sin, 0, cos) of the yaw in radians |
| EngineRenderer.CameraRows | src/lib/Engine/Renderer.ts:151-153 | the camera matrix has three rows |
| EngineRenderer.Translation | src/lib/Engine/Renderer.ts:168-172 | for a non-zero size, the translation times the size is the origin |
| EngineRenderer.ViewPointDivides | src/lib/Engine/Renderer.ts:213-222 | a point with non-zero depth in camera space has x and y divided by the depth, and all three components scaled by the size |
| EngineRenderer.VisibleCommands | src/lib/Engine/Renderer.ts:225-233 | the drawing loop makes four calls per kept triangle |
| EngineRenderer.Transformed | src/lib/Engine/Renderer.ts:173-182 | one transformed point per shape point |
| EngineRenderer.Projected | src/lib/Engine/Renderer.ts:213-222 | one projected point per shape point |
| EngineRenderer.ClassifyCases | src/lib/Engine/Renderer.ts:185-201 | a triangle throws exactly when a corner is undefined, with the error for reading `0` of undefined; it is kept exactly when defined and facing the camera, and then with its shaded colour |
| EngineRenderer.CollectFailureSticks | src/lib/Engine/Renderer.ts:185-201 | once the loop throws on a prefix, the remaining triangles do not change the error |
| EngineRenderer.CollectErrors | src/lib/Engine/Renderer.ts:185-201 | the loop completes exactly when every triangle classifies without throwing, and a throw is the throw of some triangle |
| EngineRenderer.CollectSound | src/lib/Engine/Renderer.ts:185-201 | there are no more kept entries than triangles, and each is the entry some triangle was classified to keep |
| EngineRenderer.CollectComplete | src/lib/Engine/Renderer.ts:185-201 | every entry a triangle is classified to keep is among the kept entries |
| EngineRenderer.SelectFailureSticks | src/lib/Engine/Renderer.ts:185-201 | once selection throws on a prefix of the triangles, it throws the same for all of them |
| EngineRenderer.SelectStep | src/lib/Engine/Renderer.ts:185-201 | selecting one more triangle throws, skips or appends its shaded entry |
| EngineRenderer.SelectErrors | src/lib/Engine/Renderer.ts:185-201 | selection succeeds exactly when every triangle's corners are defined, and otherwise throws the undefined-point error |
| EngineRenderer.SelectSound | src/lib/Engine/Renderer.ts:185-201 | every selected entry is a triangle of the shape that faces the camera, in its shaded colour |
| EngineRenderer.SelectComplete | src/lib/Engine/Renderer.ts:185-201 | every triangle of the shape that faces the camera is selected, in its shaded colour |
| EngineRenderer.VisibleStep | src/lib/Engine/Renderer.ts:225-233 | drawing one more triangle appends its fill and outline |
| EngineRenderer.VisibleFills | src/lib/Engine/Renderer.ts:225-233 | call 4k is the fill of the k-th kept triangle, at its projected corners, in its colour |
| EngineRenderer.SceneOrder | src/lib/Engine/Renderer.ts:146-234 | the triangles drawn are the selected ones, each exactly once, back to front by the sum of transformed z, each filled in its shaded rgb colour, so the `red` fallback is never used |
| EngineRenderer.SortedPaints | src/lib/Engine/Renderer.ts:204-210 | sorting keeps the colours rgb |
| EngineRenderer.TransformPoints | src/lib/Engine/Renderer.ts:168-182 | the transforming loop turns every point about x, then y, then z, and adds the translation |
| EngineRenderer.ClassifyTriangle | src/lib/Engine/Renderer.ts:186-200 | one pass of the selection loop is the classification of its triangle |
| EngineRenderer.SelectTriangles | src/lib/Engine/Renderer.ts:185-201 | the selection loop computes the selection, or its first throw |
| EngineRenderer.ProjectPoints | src/lib/Engine/Renderer.ts:213-222 | one point per transformed point, in order: the view rotation applied and the view translation added (with the matrices `drawShape` builds, Mᵀp − M·pos for the camera rows M), then projected and scaled by the size |
| EngineRenderer.ViewMatrices | src/lib/Engine/Renderer.ts:147-158 | the look direction follows the yaw, the view rotation is `matrixInverseRotation` of the camera rows M, their transpose Mᵀ, and the view translation is `matrixInverseTranslation`, −M·pos |
| EngineRenderer.Renderer.constructor | src/lib/Engine/Renderer.ts:52-58 | the renderer keeps the canvas and camera, with the centre at half the canvas width and height |
| EngineRenderer.Renderer.DrawPoint | src/lib/Engine/Renderer.ts:85-91 | one dot is added at the point's place on the canvas |
| EngineRenderer.Renderer.DrawLine | src/lib/Engine/Renderer.ts:99-107 | one stroke is added between the two points' places |
| EngineRenderer.Renderer.DrawTriangle | src/lib/Engine/Renderer.ts:116-120 | the outline a-b, a-c, b-c is added |
| EngineRenderer.Renderer.FillTriangle | src/lib/Engine/Renderer.ts:129-140 | the fill is added, then the outline |
| EngineRenderer.Renderer.Clear | src/lib/Engine/Renderer.ts:239-241 | the canvas is emptied |
| EngineRenderer.Renderer.DrawVisible | src/lib/Engine/Renderer.ts:225-233 | the drawing loop adds each kept triangle's fill and outline, in order |
| EngineRenderer.Renderer.DrawShape | src/lib/Engine/Renderer.ts:146-234 | the look direction follows the yaw; the canvas gets exactly the scene's calls, or nothing when a triangle names a missing point, with that error |
| EngineRenderer.LookDirection | src/lib/Engine/Renderer.ts:149-150 | the look direction: (0, 0, 1) turned about y by the yaw |
| EngineRenderer.TransformPoint | src/lib/Engine/Renderer.ts:168-182 | one shape point turned about x, then y, then z, then moved by the origin |
| EngineRenderer.Classify | src/lib/Engine/Renderer.ts:185-201 | one triangle in the selection loop: the throw for a missing corner, a skip when it faces away, or its shaded entry |
| EngineRenderer.Select | src/lib/Engine/Renderer.ts:185-201 | the selection loop: the kept triangles in order, or the first throw |
| EngineRenderer.ViewPoint | src/lib/Engine/Renderer.ts:213-222 | one point through the projecting loop: view rotation, view translation, projection, scaling |
| EngineRenderer.Scene | src/lib/Engine/Renderer.ts:146-234 | `drawShape`: the commands drawn for the sorted kept triangles, or the error thrown before anything is drawn |
| EngineRenderer.CameraSpace | src/lib/Engine/Renderer.ts:147-158 | the view as written: the transposed camera rows applied to a point plus −M·pos |
| EngineRenderer.ConsistentCameraSpace | src/lib/Engine/Renderer.ts:147-158 | the view evidently intended: the camera rows applied to the point minus the camera position |
| EngineRenderer.ConsistentCameraCentred | src/lib/Engine/Renderer.ts:147-158 | the intended view is the camera rows applied to the point plus `matrixInverseTranslation`, and it takes the camera itself to the origin |
| EngineRenderer.QuarterTurnRows | src/lib/Engine/Renderer.ts:147-153 | with exact sine and cosine of 90° the camera rows at a yaw of 90° are (0, 0, 1), (0, 1, 0), (−1, 0, 0) |
| EngineRenderer.QuarterTurnOffCentre | src/lib/Engine/Renderer.ts:147-158 | at a yaw of 90° the view as written takes the camera at (x, y, z) to (−2z, 0, 2x), so the camera at (1, 0, 0) lands at (0, 0, 2), not the origin |
| EngineRenderer.NoYawAgrees | src/lib/Engine/Renderer.ts:147-158 | at a yaw of 0 the camera rows are the identity and both views are p minus the camera position |
| EngineRenderer.ProjectedByCameraSpace | src/lib/Engine/Renderer.ts:213-222 | every projected point is the view as written of its transformed point, projected and scaled |
| Engine.RunStep | src/lib/Engine/Engine.ts:134-140 | `run` succeeds exactly from `ready` or `stopped`, moving to `running`, and otherwise throws its error |
| Engine.StopStep | src/lib/Engine/Engine.ts:145-151 | `stop` succeeds exactly from `running` and leaves the state `running`; otherwise it throws its error |
| Engine.StopThenRunThrows | src/lib/Engine/Engine.ts:134-151 | after a successful `stop` the engine is still `running`, so a following `run` throws |
| Engine.ReachableStates | src/lib/Engine/Engine.ts:82-151 | from `starting`, whatever calls follow, the state is only ever `starting`, `ready` or `running` |
| Engine.ThrottleAdvances | src/lib/Engine/Engine.ts:109-117 | a call that is not throttled comes strictly later and gives a time step of at least the threshold in seconds; a second call at the same time is always throttled |
| Engine.Scenes | src/lib/Engine/Engine.ts:124 | one drawing outcome per shape |
| Engine.DrawnErrors | src/lib/Engine/Engine.ts:123-124 | a frame is drawn completely exactly when every shape draws, otherwise the error is that of the first shape that throws, all earlier ones having drawn |
| Engine.DrawnStep | src/lib/Engine/Engine.ts:124 | drawing one more shape appends its scene or stops at its error |
| Engine.DrawnStick | src/lib/Engine/Engine.ts:124 | after a shape throws, the later shapes draw nothing |
| Engine.Engine.constructor | src/lib/Engine/Engine.ts:35-91 | a new engine is `starting`, with time 0, no frame, no shapes, a camera at the origin looking along z with no yaw shared with the renderer, and no held key |
| Engine.Engine.Settle | src/lib/Engine/Engine.ts:82-90 | when `start` settles the state becomes `ready`; a rejection first calls `onfail` in state `failed`, then `onready` is called in state `ready` |
| Engine.Engine.Run | src/lib/Engine/Engine.ts:134-140 | `run` moves to `running` and requests a frame exactly when `RunStep` allows; otherwise it throws and nothing changes |
| Engine.Engine.Stop | src/lib/Engine/Engine.ts:145-151 | `stop` succeeds exactly when running, returning the frame to cancel, and changes no state |
| Engine.Engine.Tick | src/lib/Engine/Engine.ts:109-117 | a throttled call requests a new frame and keeps the time; otherwise the time becomes the current one and the seconds elapsed go to `update`; the time never goes back |
| Engine.Engine.Frames | src/lib/Engine/Engine.ts:124 | one frame description per shape |
| Engine.Engine.DrawNext | src/lib/Engine/Engine.ts:124 | one pass of the drawing loop draws the next shape's scene onto what is drawn so far, or reports its error; either way the camera's look direction is left turned by its yaw, as `drawShape` sets it before any throw |
| Engine.Engine.DrawFrame | src/lib/Engine/Engine.ts:122-127 | the canvas is cleared and holds the scenes of the shapes in order; a throwing shape ends the frame with its error and no new frame is requested, otherwise one is; once a shape has been drawn the camera's look direction follows its yaw, and with no shapes it is unchanged (the next `update` walks along it) |
| Engine.Throttle | src/lib/Engine/Engine.ts:109-117 | the game loop's throttle: a call less than the threshold after the last one is skipped, otherwise `update` gets the seconds since |
| Engine.Drawn | src/lib/Engine/Engine.ts:123-124 | the drawing of a frame's shapes: their scenes in order, up to the first shape that throws, and that error |
| EngineInput.HeldAfter | src/lib/Engine/Input.ts:19-33 | every held key is in lower case |
| EngineInput.HeldIffPressedSince | src/lib/Engine/Input.ts:19-65 | a key is held exactly when it was pressed, in any case, after it was last released or the registry cleared |
| EngineInput.Input.constructor | src/lib/Engine/Input.ts:8-13 | a new registry holds no key |
| EngineInput.Input.AddKey | src/lib/Engine/Input.ts:19-23 | the key, lower-cased, is added to the held keys |
| EngineInput.Input.DeleteKey | src/lib/Engine/Input.ts:29-33 | the key, lower-cased, is removed from the held keys |
| EngineInput.Input.IsKeyHeld | src/lib/Engine/Input.ts:55-58 | a key is reported held exactly when it was pressed since it was last released or cleared, whatever its case |
| EngineInput.Input.Reset | src/lib/Engine/Input.ts:63-65 | no key is held afterwards |
| EngineInput.AddKeyIdempotent | src/lib/Engine/Input.ts:19-23 | pressing a key twice holds the same keys as pressing it once |
| EngineInput.AddKeyKeepsOthers | src/lib/Engine/Input.ts:19-23 | pressing a key does not change whether a key of another lower-case form is held |
| EngineInput.DeleteKeyReleasesAllCases | src/lib/Engine/Input.ts:29-33 | releasing a key releases every spelling of it that lower-cases the same |
| EngineInput.PressedByLast | src/lib/Engine/Input.ts:19-23 | a press of the key, in any case, as the last call leaves it pressed |
| EngineInput.ReleasedByLast | src/lib/Engine/Input.ts:29-33 | a release of the key in any case, or a reset, as the last call leaves it not pressed |
| EngineInput.PressedSinceKept | src/lib/Engine/Input.ts:19-33 | any other last call leaves whether the key was pressed as it was |
| Controls.Push | src/lib/Game.ts:21-52 | a pair of keys pushes +1 exactly when only the first is held, -1 exactly when only the second is, and 0 when both or neither are |
| Controls.MoveCamera | src/lib/Game.ts:17-53 | one update moves the camera to where the held keys walk it along the look direction and the axes, and turns its yaw by `e` minus `q` |
| Controls.WalkAndTurn | src/lib/Game.ts:21-36 | `w` adds and `s` subtracts the move vector, `e` and `q` turn the yaw by one degree either way |
| Controls.Strafe | src/lib/Game.ts:37-52 | `d` and `a` move along x, `Shift` and `Control` along y, and z stays |
| Controls.Strafed | src/lib/Game.ts:19-52 | the keys applied one after another give the walked position |
| Controls.ForwardBackCancel | src/lib/Game.ts:21-28 | holding both `w` and `s` and no other movement key leaves the camera where it is |
| Controls.SidewaysAxes | src/lib/Game.ts:37-52 | without forward or backward movement, `a`/`d` move only x, `Shift`/`Control` only y, by `8 * dt` |
| Controls.ForwardOnly | src/lib/Game.ts:19-24 | holding `w` alone moves the camera by the look direction times `8 * dt` |
| Controls.Wrap | src/lib/Showcase.ts:28-30 | an angle ends strictly within a full turn either way, an angle already within is unchanged, and any other is its remainder of 360 |
| Controls.WrapIdempotent | src/lib/Showcase.ts:28-30 | wrapping an angle twice is wrapping it once |
| Controls.Spin | src/lib/Showcase.ts:23-31 | every angle turns by `60 * dt` degrees and is then wrapped |
| Controls.SetSize | src/lib/Showcase.ts:52-58 | a negative size is refused with the logged message and the size kept; any other becomes the size |
| Controls.SetOrigin | src/lib/Showcase.ts:59-61 | the shape adopts the given origin object |
| Controls.GetOrigin | src/lib/Showcase.ts:71-73 | the shape's own origin object is returned |
| Controls.GetRotation | src/lib/Showcase.ts:74-76 | the shape's own rotation object is returned |
| Controls.SetRotation | src/lib/Showcase.ts:65-70 | the shape adopts the given rotation object and its angles are wrapped in place, so the caller sees them wrapped |
| Controls.CallListeners | src/lib/Showcase.ts:34-36 | every listener is called once, in registration order |
| Controls.Reloaded | src/lib/Showcase.ts:39 | the shape becomes the first one drawn, the others stay, and on an empty list it becomes the only one |
| Game.YellowChannels | src/lib/Game.ts:12 | `#FFFF00` sets red and green to 255 and blue to 0 |
| Game.PaintYellow | src/lib/Game.ts:12 | the shape's colour becomes `#FFFF00` with red and green 255 and blue 0, and nothing else of the shape changes |
| Game.Game.constructor | src/lib/Game.ts:6-8 | a game is a new engine in state `starting` with no shapes and no held key |
| Game.Game.Start | src/lib/Game.ts:10-15 | the loaded shape is painted yellow, moved to z = 2000 keeping x and y, and drawn last |
| Game.Game.Update | src/lib/Game.ts:17-53 | the camera moves and turns by the held keys, and nothing else changes |
| Showcase.Showcase.constructor | src/lib/Showcase.ts:4-19 | the engine's constructor runs `start` before the field initialisers, so the engine's only shape is a new default cube, while the shape on show is a different, new, empty shape with the defaults; spinning on, no listeners |
| Showcase.FirstUpdate | src/lib/Showcase.ts:21-40 | after the first update the shape on show, still empty, is the only shape drawn: the cube is gone |
| Showcase.Showcase.Update | src/lib/Showcase.ts:21-40 | while spinning the angles turn by `60 * dt` and are wrapped, otherwise they stay; every listener is called once in order; the shape is put back as the first one drawn |
| Showcase.Showcase.LoadType | src/lib/Showcase.ts:44-46 | a new shape of the named mesh keeps the size and colour and shares the origin and rotation of the old one |
| Showcase.Showcase.SetSize | src/lib/Showcase.ts:52-58 | a negative size is refused with the logged message; any other becomes the size |
| Showcase.Showcase.SetOrigin | src/lib/Showcase.ts:59-61 | the shape adopts the given origin object |
| Showcase.Showcase.SetColor | src/lib/Showcase.ts:62-64 | the shape's `setColor`: the colour read from the string, or, for a length other than 7, the old colour and the logged error |
| Showcase.Showcase.SetRotation | src/lib/Showcase.ts:65-70 | the shape adopts the given rotation object, wrapped in place |
| Showcase.Showcase.GetOrigin | src/lib/Showcase.ts:71-73 | the shape's own origin object is returned |
| Showcase.Showcase.GetRotation | src/lib/Showcase.ts:74-76 | the shape's own rotation object is returned |
| Showcase.Showcase.AddUpdateListener | src/lib/Showcase.ts:79-81 | the listener is registered last |
| ShowcaseGame.Create | src/lib/ShowcaseGame.ts:6-19 | as written the class defines no `start`, so the engine's constructor calling `this.start()` throws a `TypeError` and construction always fails |
| ShowcaseGame.ShowcaseGame.constructor | src/lib/ShowcaseGame.ts:6-19 | the construction evidently intended: a new engine whose only shape is the shape on show, a new default cube, spinning on, with no listeners |
| ShowcaseGame.ShowcaseGame.Update | src/lib/ShowcaseGame.ts:21-76 | the camera moves and turns by the held keys; while spinning the angles turn by `60 * dt` and are wrapped; every listener is called once in order; the shape is put back as the first one drawn |
| ShowcaseGame.ShowcaseGame.LoadType | src/lib/ShowcaseGame.ts:80-82 | with `0` passed where the shape to copy belongs, the new shape of the named mesh has the default size, origin, rotation and colour |
| ShowcaseGame.ShowcaseGame.SetSize | src/lib/ShowcaseGame.ts:88-94 | a negative size is refused with the logged message; any other becomes the size |
| ShowcaseGame.ShowcaseGame.SetOrigin | src/lib/ShowcaseGame.ts:95-97 | the shape adopts the given origin object |
| ShowcaseGame.ShowcaseGame.SetColor | src/lib/ShowcaseGame.ts:98-100 | the shape's `setColor`: the colour read from the string, or, for a length other than 7, the old colour and the logged error |
| ShowcaseGame.ShowcaseGame.SetRotation | src/lib/ShowcaseGame.ts:101-106 | the shape adopts the given rotation object, wrapped in place |
| ShowcaseGame.ShowcaseGame.GetOrigin | src/lib/ShowcaseGame.ts:107-109 | the shape's own origin object is returned |
| ShowcaseGame.ShowcaseGame.GetRotation | src/lib/ShowcaseGame.ts:110-112 | the shape's own rotation object is returned |
| ShowcaseGame.ShowcaseGame.AddUpdateListener | src/lib/ShowcaseGame.ts:115-117 | the listener is registered last |
| BasicShape.Shape.constructor | src/lib/Shape.ts:3-15 | a new shape has no points or edges, origin (0, 0), distance 1.25, no rotation and size 1 |
| BasicShape.Assign | src/lib/Shape.ts:22-29 | assigning at an index replaces that entry, or grows the array by one at its end, leaving every other entry |
| BasicShape.CubeTables | src/lib/Shape.ts:22-42 | the cube's tables are a cube: eight distinct corners of the unit cube, twelve edges, none repeated, each joining corners one coordinate apart, and every such pair joined |
| BasicShape.CubeCornersDistinct | src/lib/Shape.ts:22-29 | the eight corners are all different |
| BasicShape.CubeEdgesAdjacent | src/lib/Shape.ts:31-42 | every edge joins two corners that differ in exactly one coordinate |
| BasicShape.CubeAdjacentLinked | src/lib/Shape.ts:22-42 | every two corners that differ in one coordinate share an edge |
| BasicShape.CubeEdgesOnce | src/lib/Shape.ts:31-42 | no two edges join the same pair of corners |
| BasicShape.PyramidTables | src/lib/Shape.ts:52-66 | the prism's tables are a pyramid: four distinct points, six edges, none repeated or a loop, every pair of points joined |
| BasicShape.CreateCube | src/lib/Shape.ts:19-47 | a fresh shape holding the cube's corner and edge tables, which form a cube, at the given size and otherwise as new |
| BasicShape.CreatePrism | src/lib/Shape.ts:49-71 | a fresh shape holding the pyramid's tables, which form a pyramid, with a level base below the apex straight above the origin, at the given size and otherwise as new |
| BasicRenderer.MultiplyPoint | src/lib/Renderer.ts:3-15 | more than three rows throw the projection error; otherwise a fresh point whose first rows' entries are the row sums over as many columns as there are rows, and the rest 0 |
| BasicRenderer.MultiplyPointIsProduct | src/lib/Renderer.ts:8-14 | the loop's per-row sums are the matrix product |
| BasicRenderer.ProductOfThreeRows | src/lib/Renderer.ts:3-15 | with three rows the product is the full matrix-vector product |
| BasicRenderer.ProjectionScales | src/lib/Renderer.ts:91-96 | the two-row projection scales x and y by the factor and leaves z 0 |
| BasicRenderer.ScalePoint | src/lib/Renderer.ts:42-46 | every entry of the point is multiplied in place by the multiplier |
| BasicRenderer.ScaledIsMultiply | src/lib/Renderer.ts:42-46 | scaling in place gives the vector times the multiplier |
| BasicRenderer.TurnedInOrder | src/lib/Renderer.ts:80-89 | a point is turned about x, then y, then z by the shape's angles |
| BasicRenderer.PlacedForm | src/lib/Renderer.ts:86-98 | the drawn point is the turned x and y times `1 / (distance - z)` times the size, with z 0 |
| BasicRenderer.Screen | src/lib/Renderer.ts:61-77 | where a placed point is drawn: offset from the canvas centre, without a flip; `BasicRenderer.ScreenKeepsY` states the order along both axes and the centre |
| BasicRenderer.ScreenKeepsY | src/lib/Renderer.ts:61-77 | the y axis is not flipped: a larger y is drawn lower, a larger x further right, and the origin on the canvas centre |
| BasicRenderer.Dots | src/lib/Renderer.ts:86-102 | one white dot per projected point, in order, at its place on the canvas |
| BasicRenderer.DotsAppend | src/lib/Renderer.ts:86-102 | one more point adds its dot at the end |
| BasicRenderer.Strokes | src/lib/Renderer.ts:104-106 | one white stroke per edge, in order, between its two projected points |
| BasicRenderer.Renderer.constructor | src/lib/Renderer.ts:54-59 | the renderer keeps the canvas, with the centre at half its width and height |
| BasicRenderer.Renderer.DrawPoint | src/lib/Renderer.ts:61-67 | one white dot is added at the point's place |
| BasicRenderer.Renderer.DrawLine | src/lib/Renderer.ts:69-77 | one white stroke is added between the two points' places |
| BasicRenderer.Renderer.DrawPlaced | src/lib/Renderer.ts:86-101 | one pass of the point loop returns the placed point and adds its dot |
| BasicRenderer.Renderer.DrawPoints | src/lib/Renderer.ts:86-102 | the point loop returns every point placed, in order, and adds their dots |
| BasicRenderer.Renderer.DrawEdges | src/lib/Renderer.ts:104-106 | the edge loop adds every edge's stroke, in order |
| BasicRenderer.Renderer.DrawShape | src/lib/Renderer.ts:79-107 | every point is placed, in order, and the canvas gets their dots then the edges' strokes |
| BasicRenderer.Renderer.Clear | src/lib/Renderer.ts:109-111 | the canvas is emptied |

## Left out

- Floating point: rounding, NaN and Infinity are not modelled. Numbers are exact reals, and a division by zero gives 0 where JavaScript gives Infinity or NaN.
- `Math.sqrt`, `sin`, `cos`, `tan` and `PI` are parameters. The correctness of the rotation matrices and the trigonometric content of the projection matrix are not proved, beyond the w = -z column of the projection.
- Canvas 2D drawing (`getContext`, paths, styles, line widths, the arc radius): each drawing call is a command appended to a list.
- Asynchronous and browser I/O:
  - `loadShape` (`fetch`) and `createShapeFromObjFile` (`FileReader`) in both `Shape` files;
  - the `loadFile` controllers that call them;
  - `Game.start`'s loading of the teapot: the loaded shape is a parameter of `Game.Game.Start`;
  - `requestAnimationFrame` and `cancelAnimationFrame`: frame identifiers are parameters and results.
- `Input`'s `window` listeners and `addAlternativeButton`: they only route browser events to `addKey` and `deleteKey`, which are modelled.
- Float parsing by `Number(...)`: the parameter `num` stands for it.
- The `parseInt(pair, 16)` of a colour channel reads the longest run of hex digits. The model returns `None` where JavaScript gives NaN.
- `toLowerCase` outside ASCII: Unicode case mapping is not modelled.
- ShapeCommon.ColorFromHex: strings are sequences of Unicode code points, so the length test `hex.length !== 7` and the `substring` offsets count code points where JavaScript counts UTF-16 code units. A string holding a character above U+FFFF is therefore read differently: `"#😀1234"` is 7 units long and accepted by JavaScript but is 6 code points long and refused here, and `"#😀12345"` is the other way round.
- UtilsShape.Shape.SetColor: counts the length in code points, through `ShapeCommon.ColorFromHex`, for the same reason.
- EngineShape.Shape.SetColor: counts the length in code points, through `ShapeCommon.ColorFromHex`, for the same reason.
- Showcase.Showcase.SetColor: counts the length in code points, through the shape's `setColor`, for the same reason.
- ShowcaseGame.ShowcaseGame.SetColor: counts the length in code points, through the shape's `setColor`, for the same reason.
- The `console.error(vertices)` and `console.error(faces)` that both `.obj` readers print just before they throw (`src/lib/EngineUtils/Shape.ts:128` and `139`, `src/lib/Engine/Shape.ts:178` and `189`) are not modelled. The thrown error, which carries the line, is.
- The JSON meshes imported by `src/lib/Engine/Shape.ts` are not part of this model. They are a parameter.
- What an update listener does: listeners are identities whose calls are recorded.
- Engine subclassing: `Game`, `Showcase` and `ShowcaseGame` hold an engine rather than extend it. Their `update` hooks run between `Engine.Engine.Tick` and `Engine.Engine.DrawFrame`.
- `src/lib/Engine.ts` (a `setTimeout` loop calling a function that the first `Shape` class does not have) and `docs/assets/search.js` (generated documentation search data) are not part of this model.
- `BasicShape.CreateCube` and `BasicShape.CreatePrism` take the size as an argument: the default of 100 is not modelled.
- ShowcaseGame.ShowcaseGame.constructor: models the construction evidently intended, since as written construction throws (`ShowcaseGame.Create`, see Findings). It creates the cube with the default parameters. `src/lib/ShowcaseGame.ts:17` passes the number `100` where a shape to copy from belongs, and the effect of copying from a number (undefined size, origin, rotation and colour) is not modelled.
- ShowcaseGame.ShowcaseGame.LoadType: `src/lib/ShowcaseGame.ts:81` passes `0` where the shape to copy from belongs. `0` is falsy, so the new shape gets the defaults, and the shape passed after it is ignored; this is modelled as written.
- BasicRenderer.Renderer.DrawShape: requires every edge to name existing points. With an out-of-range index, JavaScript would throw a TypeError when drawing that edge, after the dots already drawn.
- BasicRenderer.Renderer.DrawEdges: requires every edge to name existing points, for the same reason.
- BasicRenderer.Strokes: defined only for edges that name existing points.

## Findings

| source | as written | input that shows it | evidently intended | confidence | as-written member | corrected member |
|---|---|---|---|---|---|---|
| src/lib/Engine/Renderer.ts:153-158 | the view rotation is the transpose Mᵀ of the camera rows and the view translation is −M·pos, so a point p lands at Mᵀp − M·pos | yaw 90° with exact sine and cosine, camera at (1, 0, 0): the camera itself lands at (0, 0, 2) instead of the origin | the view M·(p − pos), which takes the camera to the origin for every yaw | high, not executed | EngineRenderer.QuarterTurnOffCentre | EngineRenderer.ConsistentCameraCentred |
| src/lib/ShowcaseGame.ts:6-19 | the class extends the abstract `Engine` without defining `start`, and the engine's constructor calls `this.start()` | `new ShowcaseGame(canvas)`: `this.start` is undefined, so the call throws a `TypeError` | a game whose only shape is the new cube it shows | high, not executed | ShowcaseGame.Create | ShowcaseGame.ShowcaseGame.constructor |

The `Engine` pipeline (`EngineRenderer.Scene`, `EngineRenderer.Renderer.DrawShape`) keeps the view as written, so what it draws is what the library draws. `EngineRenderer.NoYawAgrees` shows that the two views agree when the camera has not turned.
