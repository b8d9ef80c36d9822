# CRS service client factory and WKT keyword patch, in Dafny

This project models two small pieces of the CRS service repository.

**The client-side coordinate operation factory** (`CRSServiceCoordinateOperationFactory`).
`createOperation` builds a query URL from the WKT of two coordinate reference systems and a format tag. It fetches the operation's source code from the service, then picks a script dialect from the tag (JavaScript or Python). It evaluates the code in a new engine of that dialect and returns a named coordinate operation whose math transform calls that engine. The nested `JSMathTransform.transform` does three things:
- copies the source window `src[so .. so + sourceDim)` into an argument array;
- calls the engine, either with the array itself (JavaScript) or with a Python call text that spells out the coordinates;
- stores the first `targetDim` elements of the returned list at `dst[doffset ..]`.

**The WKT keyword patch** (`IAUFactoryConfiguration.ReplaceGeogBufferedReader`). It is a reader that rewrites every `BASEGEOGCRS` in a line to `BASEGEODCRS`, matching ASCII letters case-insensitively. The configuration puts it in front of the WKT dictionary when `replaceGeog` is set.

Files:
- `basics.dfy`: `Option` and `Result`.
- `strings.dfy`: `Join` and `Fields` (split at a separator), with round-trip lemmas. They are the reference reading of the query and call texts.
- `wkt_patch.dfy`: module `WktPatch`, the keyword rewrite and its properties. An occurrence is a place where the 11 letters, lower-cased by `Lower`, read `basegeogcrs`.
- `script_transform.dfy`: module `ScriptTransform`, the math transform. `MathTransform.Transform` is an imperative method over two arrays, proved against the specification function `MathTransform.EffectOf`. Its two loops are the methods `CopyWindow` and `WriteBack`. The lemmas about `EffectOf` state the transform's behaviour.
- `operation_factory.dfy`: module `OperationFactory`. It covers query building, format dispatch, the JavaScript prelude, operation naming, the rewrapping of errors, and the three factory methods that always fail.

Things outside the factory become fields of an `Environment` value that the model does not interpret:
- the network (`getText`);
- `URLEncoder.encode`;
- the script engines (evaluate a script, then call the operation);
- `Double.toString`.

Coordinates are an opaque type `V`, because the code only copies them.

The tags `FORMAT_JAVASCRIPT` and `FORMAT_PYTHON` are declared in `DefaultCrsOperationService`. That class is not part of this model, so the tags are a `FormatTags` parameter. As in the code, the JavaScript tag is compared first.

`createOperation` fetches the code (line 83) before it looks at the format (lines 88-98). So an unknown format is not rejected up front: it still costs one request, and a fetch failure hides the format error. The model keeps this order: see `UnsupportedFormatAfterFetch`.

Java's evaluation order matters in the write-back loop. In `dst[doffset + i] = ((Number) result.get(i)).doubleValue()`, the right-hand side is evaluated before the store into `dst` is bounds-checked. So a null list, a short list, a non-number element or a null element takes precedence over a `dst` index out of range (`StepFailure`). A null element passes the `(Number)` cast and then fails in `doubleValue()` with a NullPointerException. None of these unchecked exceptions is caught by the `catch (ScriptException | NoSuchMethodException)` clause. When one of them escapes, the slots stored before it are already written.

## Model

| member | source | states |
|---|---|---|
| `WktPatch.ReplaceGeog` | src/main/java/com/geomatys/crsservice/configuration/IAUFactoryConfiguration.java:93 | the rewritten line has the same length as the input (both keywords have 11 letters) |
| `WktPatch.OccurrenceReplaced` | src/main/java/com/geomatys/crsservice/configuration/IAUFactoryConfiguration.java:76-78 | every ASCII-case-insensitive occurrence of BASEGEOGCRS in the line reads exactly BASEGEODCRS (upper case) in the result |
| `WktPatch.OutsideUnchanged` | src/main/java/com/geomatys/crsservice/configuration/IAUFactoryConfiguration.java:93 | a character inside no occurrence is copied unchanged |
| `WktPatch.PlainLineUnchanged` | src/main/java/com/geomatys/crsservice/configuration/IAUFactoryConfiguration.java:93 | a line with no occurrence comes back unchanged |
| `WktPatch.NoKeywordLeft` | src/main/java/com/geomatys/crsservice/configuration/IAUFactoryConfiguration.java:93 | no case-insensitive BASEGEOGCRS starts at any index of the result |
| `WktPatch.KeywordGone` | src/main/java/com/geomatys/crsservice/configuration/IAUFactoryConfiguration.java:76-78 | the result contains no occurrence at all: every occurrence was replaced |
| `WktPatch.ReplaceGeogIdempotent` | src/main/java/com/geomatys/crsservice/configuration/IAUFactoryConfiguration.java:93 | rewriting a rewritten line changes nothing |
| `WktPatch.MixedCaseMatches` | src/main/java/com/geomatys/crsservice/configuration/IAUFactoryConfiguration.java:93 | `baseGeogCrs` is an occurrence: letter case is ignored |
| `WktPatch.MixedCaseExample` | src/main/java/com/geomatys/crsservice/configuration/IAUFactoryConfiguration.java:93 | `baseGeogCrs` becomes `BASEGEODCRS` |
| `WktPatch.ReadLine` | src/main/java/com/geomatys/crsservice/configuration/IAUFactoryConfiguration.java:90-95 | end of input (null) stays null; a line keeps its length and loses every occurrence |
| `WktPatch.ImportedLine` | src/main/java/com/geomatys/crsservice/configuration/IAUFactoryConfiguration.java:62 | without `replaceGeog` the plain reader passes lines through unchanged; with it, lines reach the dictionary free of the keyword |
| `ScriptTransform.PythonCallLists` | src/testFixtures/java/com/geomatys/crsservice/client/CRSServiceCoordinateOperationFactory.java:174 | the Python call text is `Operation().transform([` ... `])`, and between the brackets it lists each coordinate's literal in order, separated by `, ` |
| `ScriptTransform.Window` | src/testFixtures/java/com/geomatys/crsservice/client/CRSServiceCoordinateOperationFactory.java:168-171 | the argument array holds `src[so + k]` at index k, for k below `sourceDim` |
| `ScriptTransform.Completed` | src/testFixtures/java/com/geomatys/crsservice/client/CRSServiceCoordinateOperationFactory.java:179-181 | the write-back loop completes exactly the steps before the first failing one |
| `ScriptTransform.Written` | src/testFixtures/java/com/geomatys/crsservice/client/CRSServiceCoordinateOperationFactory.java:179-181 | after k completed steps, `dst[doffset + i]` holds list element i for i < k, and every other slot is unchanged |
| `ScriptTransform.CopyWindow` | src/testFixtures/java/com/geomatys/crsservice/client/CRSServiceCoordinateOperationFactory.java:168-171 | the copy loop yields a coordinate array if and only if every index `so + i` is inside `src`, and then exactly the window |
| `ScriptTransform.StepFailure` | src/testFixtures/java/com/geomatys/crsservice/client/CRSServiceCoordinateOperationFactory.java:180 | one step of the write-back loop, in Java's order: a null list or a null element is a NullPointerException, a short list an IndexOutOfBoundsException, a non-number a ClassCastException, and only a numeric element can hit an ArrayIndexOutOfBoundsException; the step succeeds if and only if none applies |
| `ScriptTransform.WriteBack` | src/testFixtures/java/com/geomatys/crsservice/client/CRSServiceCoordinateOperationFactory.java:179-181 | the write-back loop leaves `dst` as `Written` after the completed steps, and reports the first failing step's exception, or none when all `targetDim` steps complete |
| `ScriptTransform.MathTransform.Call` | src/testFixtures/java/com/geomatys/crsservice/client/CRSServiceCoordinateOperationFactory.java:173-177 | a JavaScript engine is invoked with the coordinate array itself; a Python engine evaluates the call text `Operation().transform([...])` built from the coordinates |
| `ScriptTransform.MathTransform.Transform` | src/testFixtures/java/com/geomatys/crsservice/client/CRSServiceCoordinateOperationFactory.java:162-186 | the two loops over the arrays produce exactly the outcome, the new `dst`, and the engine input that `EffectOf` specifies, including the unchecked exception of a null list, a short list, a non-number or a null element; `src` changes only when it is `dst` |
| `ScriptTransform.MathTransform.DerivateRefused` | src/testFixtures/java/com/geomatys/crsservice/client/CRSServiceCoordinateOperationFactory.java:163-165 | asking for the derivative throws "Derivate not supported" before any engine call, with `dst` untouched |
| `ScriptTransform.MathTransform.EngineSeesWindow` | src/testFixtures/java/com/geomatys/crsservice/client/CRSServiceCoordinateOperationFactory.java:168-177 | the engine is called if and only if no derivative is asked and the source window is readable, and then with exactly `src[so] .. src[so + sourceDim - 1]` in order |
| `ScriptTransform.MathTransform.DstFrame` | src/testFixtures/java/com/geomatys/crsservice/client/CRSServiceCoordinateOperationFactory.java:179-181 | in every case `dst` keeps its length and changes only inside `[doffset, doffset + targetDim)` |
| `ScriptTransform.MathTransform.ScriptErrorCaught` | src/testFixtures/java/com/geomatys/crsservice/client/CRSServiceCoordinateOperationFactory.java:182-184 | a script or method-lookup failure becomes a TransformException with the same message, and `dst` is untouched |
| `ScriptTransform.MathTransform.ResultWritten` | src/testFixtures/java/com/geomatys/crsservice/client/CRSServiceCoordinateOperationFactory.java:179-185 | a list of at least `targetDim` numbers, with room for them in `dst`, gives `dst[doffset + i] == result[i]` for i < `targetDim`; trailing elements are ignored, other slots are kept, and the method returns null |
| `ScriptTransform.MathTransform.SucceedsOnlyWhenWritten` | src/testFixtures/java/com/geomatys/crsservice/client/CRSServiceCoordinateOperationFactory.java:162-186 | the converse: returning null implies no derivative was asked, the window was readable, and (for `targetDim` > 0) the list is long enough, all numbers, and fits in `dst` |
| `ScriptTransform.MathTransform.ShortResultPartlyWritten` | src/testFixtures/java/com/geomatys/crsservice/client/CRSServiceCoordinateOperationFactory.java:179-184 | a list shorter than `targetDim` ends in an unchecked IndexOutOfBoundsException, not a TransformException, after its elements were already stored in `dst`; `dst` needs room only for those elements, because the list is read before `dst` is indexed |
| `ScriptTransform.MathTransform.NullResultEscapes` | src/testFixtures/java/com/geomatys/crsservice/client/CRSServiceCoordinateOperationFactory.java:179-180 | a null list, with at least one slot to fill, ends in an unchecked NullPointerException and leaves `dst` untouched |
| `ScriptTransform.MathTransform.NonNumberPartlyWritten` | src/testFixtures/java/com/geomatys/crsservice/client/CRSServiceCoordinateOperationFactory.java:179-184 | a non-number at step m ends in an unchecked ClassCastException, not a TransformException, after the m elements before it were stored; other slots are kept, and `dst` needs no slot for step m |
| `ScriptTransform.MathTransform.NullElementPartlyWritten` | src/testFixtures/java/com/geomatys/crsservice/client/CRSServiceCoordinateOperationFactory.java:179-184 | a null element at step m ends in an unchecked NullPointerException after the m elements before it were stored; other slots are kept, and `dst` needs no slot for step m |
| `ScriptTransform.MathTransform.DimensionsReported` | src/testFixtures/java/com/geomatys/crsservice/client/CRSServiceCoordinateOperationFactory.java:151-159 | `getSourceDimensions` is the number of coordinates the engine receives, and `getTargetDimensions` bounds the slots of `dst` a call can change |
| `OperationFactory.Query` | src/testFixtures/java/com/geomatys/crsservice/client/CRSServiceCoordinateOperationFactory.java:78-80 | the query starts with the service URL and ends with the format exactly as given, not encoded |
| `OperationFactory.QueryFields` | src/testFixtures/java/com/geomatys/crsservice/client/CRSServiceCoordinateOperationFactory.java:78-80 | when no part contains `&`, the query splits into `<url>?source=enc(wkt1)`, `target=enc(wkt2)` and `format=<format>` |
| `OperationFactory.DialectOf` | src/testFixtures/java/com/geomatys/crsservice/client/CRSServiceCoordinateOperationFactory.java:88-98 | JavaScript if and only if the format equals the JavaScript tag; Python if and only if it equals the Python tag and not the JavaScript tag; no dialect otherwise |
| `OperationFactory.JsPrelude` | src/testFixtures/java/com/geomatys/crsservice/client/CRSServiceCoordinateOperationFactory.java:90 | the script is `const operationClass = (` + the fetched code, unaltered + `);\noperation = new operationClass();` |
| `OperationFactory.Compile` | src/testFixtures/java/com/geomatys/crsservice/client/CRSServiceCoordinateOperationFactory.java:88-95 | JavaScript code is evaluated inside the prelude and Python code as fetched; evaluation succeeds if and only if the engine accepts the script, a failure keeps the engine's message, and the engine kind always matches the dialect |
| `OperationFactory.Build` | src/testFixtures/java/com/geomatys/crsservice/client/CRSServiceCoordinateOperationFactory.java:82-103 | the body of the `try` block: a fetch failure keeps its message; fetched code with an unknown format fails with "Format not supported yet : " + format; a built operation goes from crs1 to crs2, is named after the dialect, has the two systems' dimensions, and holds a JavaScript engine if and only if the format is the JavaScript tag |
| `OperationFactory.CreateOperation` | src/testFixtures/java/com/geomatys/crsservice/client/CRSServiceCoordinateOperationFactory.java:76-107 | exactly one request, for the query URL, whatever the format; every failure is a FactoryException; a created operation goes from crs1 to crs2, is named `<type> operation`, and its transform's source and target dimensions are the two systems' dimensions |
| `OperationFactory.CreateDefaultOperation` | src/testFixtures/java/com/geomatys/crsservice/client/CRSServiceCoordinateOperationFactory.java:71-74 | the two-argument form is the three-argument form with the JavaScript format |
| `OperationFactory.JavaScriptDispatch` | src/testFixtures/java/com/geomatys/crsservice/client/CRSServiceCoordinateOperationFactory.java:88-91 | the JavaScript tag evaluates the prelude-wrapped code and yields "JavaScript operation", whose transform calls that engine |
| `OperationFactory.PythonDispatch` | src/testFixtures/java/com/geomatys/crsservice/client/CRSServiceCoordinateOperationFactory.java:92-95 | the Python tag evaluates the code as fetched and yields "Python operation" |
| `OperationFactory.UnsupportedFormatAfterFetch` | src/testFixtures/java/com/geomatys/crsservice/client/CRSServiceCoordinateOperationFactory.java:82-98 | any other format still sends the request, then fails with FactoryException("Format not supported yet : " + format), or with the fetch failure's message if the fetch failed first |
| `OperationFactory.FailuresRewrapped` | src/testFixtures/java/com/geomatys/crsservice/client/CRSServiceCoordinateOperationFactory.java:104-106 | a fetch failure or an evaluation failure comes out as a FactoryException with the same message |
| `OperationFactory.CreateOperationByMethod` | src/testFixtures/java/com/geomatys/crsservice/client/CRSServiceCoordinateOperationFactory.java:109-112 | always throws UnsupportedOperationException("Not supported.") |
| `OperationFactory.CreateConcatenatedOperation` | src/testFixtures/java/com/geomatys/crsservice/client/CRSServiceCoordinateOperationFactory.java:114-117 | always throws UnsupportedOperationException("Not supported.") |
| `OperationFactory.CreateDefiningConversion` | src/testFixtures/java/com/geomatys/crsservice/client/CRSServiceCoordinateOperationFactory.java:119-122 | always throws UnsupportedOperationException("Not supported.") |

## Left out

- HTTP fetch (`getText`, lines 129-137): network I/O. It is an oracle from the query to a body or a failure message, and that covers a query that is not a valid URI.
- URL encoding: `URLEncoder.encode` is a library call, kept as an uninterpreted `encode` function.
- Script engines: evaluating JavaScript or Python, `invokeMethod`, `ProxyArray` and the lookup of `operation` are foreign runtimes. Each is an oracle returning a list, null, some other object, or a script failure. An engine that is not installed (`getEngineByName` returning null) is folded into an evaluation failure.
- `Double.toString`, used by `Arrays.toString` for the Python call text, is the uninterpreted `literal` function. `Number.doubleValue` is folded into the list elements, so the model does no floating-point arithmetic.
- Apache SIS types: `AbstractCoordinateOperation`, `DefaultCitation`, `toWKT` and the coordinate systems. A reference system is reduced to its WKT text and dimension. `getVendor` (lines 124-127) only wraps the service URL in a SIS citation, so it is not modelled.
- The constructor's `System.setProperty` (line 68): a global side effect.
- Engine lifetime: the code never closes an engine, and the model has no teardown to state.
- Null arguments (null reference systems, format or arrays) and exceptions thrown by `toWKT` outside the `try` block are not modelled.
- Java `int` arithmetic on `so + i` and `doffset + i` is modelled unbounded. For arrays that Java can allocate, a wrapped index is negative, so the outcome is the same index exception.
- Java strings count UTF-16 code units, while Dafny strings count Unicode characters. The rewrite changes only ASCII letters, so the same-length property holds under either count.
- Configuration loading (`afterPropertiesSet`, `importWkts`, lines 47-66) is out of scope: Spring wiring, resource streams, `WKTDictionary.load` and logging. The reader choice at line 62 is modelled per line (`ImportedLine`). The rest of `BufferedReader` is inherited I/O.
- `ScriptTransform.PythonCallLists` assumes that no coordinate literal contains a comma, which holds for `Double.toString`.
- `OperationFactory.QueryFields` assumes that no part contains `&`. `URLEncoder` never produces one, but the format is appended unencoded, so a format containing `&` would add query parameters.
