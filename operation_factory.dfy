/**
 * The client-side coordinate operation factory backed by the CRS service:
 * it asks the service for the source code of the operation between two
 * reference systems, compiles it in a fresh script engine of the requested
 * dialect and wraps the engine in a `MathTransform`. The network fetch, URL
 * encoding and script evaluation are oracles gathered in an `Environment`.
 */
module OperationFactory {
  import opened Basics
  import opened Strings
  import opened ScriptTransform

  /** A coordinate reference system as the factory reads it: its WKT and its coordinate system's dimension. */
  datatype Crs = Crs(wkt: string, dimension: nat)

  /** The service's format tags (its FORMAT_JAVASCRIPT and FORMAT_PYTHON constants). */
  datatype FormatTags = FormatTags(javascript: string, python: string)

  /** The two script dialects the factory can compile. */
  datatype Dialect = JavaScript | Python

  /** The body the service sent back, or the message of the exception fetching it threw. */
  datatype Fetched = Text(body: string) | FetchError(message: string)

  /** A fresh engine after evaluating a script: the session the transform will call, or the evaluation's failure message. */
  datatype Evaluated<S> = Session(session: S) | EvalError(message: string)

  /**
   * Everything outside the factory that it calls: `URLEncoder.encode` (UTF-8),
   * the HTTP GET of `getText`, a new "js" or "python" engine evaluating a
   * script, and the `Double.toString` the Python call text uses.
   */
  datatype Environment<!V> = Environment(
    encode: string -> string,
    getText: string -> Fetched,
    evalJavaScript: string -> Evaluated<seq<V> -> Reply<V>>,
    evalPython: string -> Evaluated<string -> Reply<V>>,
    literal: V -> string)

  /** The coordinate operation returned to the caller. */
  datatype Operation<!V> = Operation(name: string, source: Crs, target: Crs, transform: MathTransform<V>)

  /** The two kinds of exception the factory methods throw. */
  datatype Thrown = FactoryException(message: string) | UnsupportedOperation(message: string)

  /** A factory method's result: the value it returns or the exception it throws. */
  datatype Created<T> = Created(value: T) | Threw(error: Thrown)

  /** One `createOperation` call: the URLs it fetched, in order, and its result. */
  datatype Attempt<!V> = Attempt(requests: seq<string>, result: Created<Operation<V>>)

  const UnsupportedFormatPrefix: string := "Format not supported yet : "
  const NotSupportedMessage: string := "Not supported."
  const JsHead: string := "const operationClass = ("
  const JsTail: string := ");\noperation = new operationClass();"

  /**
   * The request URL: the two WKTs are URL-encoded, the format is appended
   * as given, without encoding.
   */
  function Query(encode: string -> string, serviceUrl: string, crs1: Crs, crs2: Crs, format: string): (q: string)
    ensures |serviceUrl| <= |q| && q[..|serviceUrl|] == serviceUrl
    ensures |format| <= |q| && q[|q| - |format|..] == format
  {
    serviceUrl + "?source=" + encode(crs1.wkt) + "&target=" + encode(crs2.wkt) + "&format=" + format
  }

  /**
   * When neither the service URL, the encoded WKTs nor the format contain
   * '&', the query splits into exactly its three parameters.
   */
  lemma QueryFields(encode: string -> string, serviceUrl: string, crs1: Crs, crs2: Crs, format: string)
    requires '&' !in serviceUrl && '&' !in encode(crs1.wkt) && '&' !in encode(crs2.wkt) && '&' !in format
    ensures Fields(Query(encode, serviceUrl, crs1, crs2, format), '&') ==
      [serviceUrl + "?source=" + encode(crs1.wkt), "target=" + encode(crs2.wkt), "format=" + format]
  {
    var a := serviceUrl + "?source=" + encode(crs1.wkt);
    var b := "target=" + encode(crs2.wkt);
    var c := "format=" + format;
    assert [a, b, c][1..] == [b, c] && [b, c][1..] == [c];
    assert Join([b, c], "&") == b + "&" + Join([c], "&") == b + "&" + c;
    assert Join([a, b, c], "&") == a + "&" + Join([b, c], "&");
    assert "&target=" == "&" + "target=" && "&format=" == "&" + "format=";
    calc {
      a + "&" + (b + "&" + c);
      serviceUrl + "?source=" + encode(crs1.wkt) + ("&" + "target=") + encode(crs2.wkt) + ("&" + "format=") + format;
      Query(encode, serviceUrl, crs1, crs2, format);
    }
    FieldsOfJoin([a, b, c], '&');
  }

  /** The dialect a format tag selects: the JavaScript tag is checked first, then the Python tag, anything else has none. */
  function DialectOf(tags: FormatTags, format: string): (d: Option<Dialect>)
    ensures d == Some(JavaScript) <==> format == tags.javascript
    ensures d == Some(Python) <==> format != tags.javascript && format == tags.python
    ensures d == None <==> format != tags.javascript && format != tags.python
  {
    if format == tags.javascript then Some(JavaScript)
    else if format == tags.python then Some(Python)
    else None
  }

  /** The type word that names the operation. */
  function TypeName(d: Dialect): string
  {
    match d
    case JavaScript => "JavaScript"
    case Python => "Python"
  }

  /** The fetched JavaScript wrapped so that it defines the operation class and binds an instance to `operation`. */
  function JsPrelude(code: string): (script: string)
    ensures |script| == |JsHead| + |code| + |JsTail|
    ensures script[..|JsHead|] == JsHead
    ensures script[|JsHead|..|JsHead| + |code|] == code
    ensures script[|JsHead| + |code|..] == JsTail
  {
    JsHead + code + JsTail
  }

  /**
   * Evaluating the fetched code in a new engine of the dialect: JavaScript
   * inside the prelude, Python as it came. The engine kind always matches
   * the dialect, so the transform later calls it by the right convention.
   */
  function Compile<V>(env: Environment<V>, d: Dialect, code: string): (r: Result<Engine<V>>)
    ensures d == JavaScript ==>
      (r.Success? <==> env.evalJavaScript(JsPrelude(code)).Session?) &&
      (r.Success? ==> r.value == JavaScriptEngine(env.evalJavaScript(JsPrelude(code)).session)) &&
      (r.Failure? ==> r.message == env.evalJavaScript(JsPrelude(code)).message)
    ensures d == Python ==>
      (r.Success? <==> env.evalPython(code).Session?) &&
      (r.Success? ==> r.value == PythonEngine(env.evalPython(code).session, env.literal)) &&
      (r.Failure? ==> r.message == env.evalPython(code).message)
    ensures r.Success? ==> (r.value.JavaScriptEngine? <==> d == JavaScript)
  {
    match d
    case JavaScript =>
      (match env.evalJavaScript(JsPrelude(code))
       case Session(s) => Success(JavaScriptEngine(s))
       case EvalError(m) => Failure(m))
    case Python =>
      (match env.evalPython(code)
       case Session(s) => Success(PythonEngine(s, env.literal))
       case EvalError(m) => Failure(m))
  }

  /**
   * The body of the `try` block: fetch the code, reject an unknown format,
   * compile, and build the operation; or the message of what it throws.
   */
  function Build<V>(env: Environment<V>, tags: FormatTags, crs1: Crs, crs2: Crs, format: string, query: string): (r: Result<Operation<V>>)
    ensures env.getText(query).FetchError? ==> r == Failure(env.getText(query).message)
    ensures env.getText(query).Text? && DialectOf(tags, format).None? ==>
      r == Failure(UnsupportedFormatPrefix + format)
    ensures r.Success? ==>
      env.getText(query).Text? && DialectOf(tags, format).Some? &&
      Compile(env, DialectOf(tags, format).value, env.getText(query).body).Success? &&
      r.value.name == TypeName(DialectOf(tags, format).value) + " operation" &&
      r.value.source == crs1 && r.value.target == crs2 &&
      r.value.transform.SourceDimensions() == crs1.dimension &&
      r.value.transform.TargetDimensions() == crs2.dimension &&
      (r.value.transform.engine.JavaScriptEngine? <==> format == tags.javascript)
  {
    match env.getText(query)
    case FetchError(m) => Failure(m)
    case Text(code) =>
      match DialectOf(tags, format)
      case None => Failure(UnsupportedFormatPrefix + format)
      case Some(d) =>
        match Compile(env, d, code)
        case Failure(m) => Failure(m)
        case Success(engine) =>
          Success(Operation(TypeName(d) + " operation", crs1, crs2,
            MathTransform(crs1.dimension, crs2.dimension, engine)))
  }

  /**
   * `createOperation(crs1, crs2, format)`: exactly one request, always made
   * (even for an unsupported format); any failure becomes a
   * `FactoryException` with the original message; an operation goes from
   * `crs1` to `crs2` with the two reference systems' dimensions.
   */
  function CreateOperation<V>(env: Environment<V>, serviceUrl: string, tags: FormatTags, crs1: Crs, crs2: Crs, format: string): (a: Attempt<V>)
    ensures a.requests == [Query(env.encode, serviceUrl, crs1, crs2, format)]
    ensures a.result.Threw? ==> a.result.error.FactoryException?
    ensures a.result.Created? ==>
      var op := a.result.value;
      DialectOf(tags, format).Some? &&
      op.name == TypeName(DialectOf(tags, format).value) + " operation" &&
      op.source == crs1 && op.target == crs2 &&
      op.transform.SourceDimensions() == crs1.dimension &&
      op.transform.TargetDimensions() == crs2.dimension
  {
    var query := Query(env.encode, serviceUrl, crs1, crs2, format);
    var result :=
      match Build(env, tags, crs1, crs2, format, query)
      case Success(op) => Created(op)
      case Failure(m) => Threw(FactoryException(m));
    Attempt([query], result)
  }

  /** `createOperation(crs1, crs2)`: the JavaScript format. */
  function CreateDefaultOperation<V>(env: Environment<V>, serviceUrl: string, tags: FormatTags, crs1: Crs, crs2: Crs): (a: Attempt<V>)
    ensures a == CreateOperation(env, serviceUrl, tags, crs1, crs2, tags.javascript)
  {
    CreateOperation(env, serviceUrl, tags, crs1, crs2, tags.javascript)
  }

  /** `createOperation(crs1, crs2, method)`: never supported. */
  function CreateOperationByMethod<V, M>(crs1: Crs, crs2: Crs, opMethod: M): (r: Created<Operation<V>>)
    ensures r == Threw(UnsupportedOperation(NotSupportedMessage))
  {
    Threw(UnsupportedOperation(NotSupportedMessage))
  }

  /** `createConcatenatedOperation(properties, operations)`: never supported. */
  function CreateConcatenatedOperation<V, P>(properties: P, operations: seq<Operation<V>>): (r: Created<Operation<V>>)
    ensures r == Threw(UnsupportedOperation(NotSupportedMessage))
  {
    Threw(UnsupportedOperation(NotSupportedMessage))
  }

  /** `createDefiningConversion(properties, method, parameters)`: never supported. */
  function CreateDefiningConversion<C, P, M, G>(properties: P, opMethod: M, parameters: G): (r: Created<C>)
    ensures r == Threw(UnsupportedOperation(NotSupportedMessage))
  {
    Threw(UnsupportedOperation(NotSupportedMessage))
  }

  // ----- format dispatch, one lemma per branch -----

  /**
   * The JavaScript tag compiles the code inside the prelude in a "js" engine
   * and yields "JavaScript operation" whose transform calls that engine.
   */
  lemma JavaScriptDispatch<V>(env: Environment<V>, serviceUrl: string, tags: FormatTags, crs1: Crs, crs2: Crs, code: string, session: seq<V> -> Reply<V>)
    requires env.getText(Query(env.encode, serviceUrl, crs1, crs2, tags.javascript)) == Text(code)
    requires env.evalJavaScript(JsPrelude(code)) == Session(session)
    ensures CreateOperation(env, serviceUrl, tags, crs1, crs2, tags.javascript).result ==
      Created(Operation("JavaScript operation", crs1, crs2,
        MathTransform(crs1.dimension, crs2.dimension, JavaScriptEngine(session))))
  {
    assert TypeName(JavaScript) + " operation" == "JavaScript operation";
  }

  /**
   * The Python tag (when it differs from the JavaScript one) evaluates the
   * code as it came and yields "Python operation".
   */
  lemma PythonDispatch<V>(env: Environment<V>, serviceUrl: string, tags: FormatTags, crs1: Crs, crs2: Crs, code: string, session: string -> Reply<V>)
    requires tags.python != tags.javascript
    requires env.getText(Query(env.encode, serviceUrl, crs1, crs2, tags.python)) == Text(code)
    requires env.evalPython(code) == Session(session)
    ensures CreateOperation(env, serviceUrl, tags, crs1, crs2, tags.python).result ==
      Created(Operation("Python operation", crs1, crs2,
        MathTransform(crs1.dimension, crs2.dimension, PythonEngine(session, env.literal))))
  {
    assert TypeName(Python) + " operation" == "Python operation";
  }

  /**
   * Any other format is rejected only after the fetch: the request is still
   * sent, and the result is a `FactoryException` naming the format (or
   * carrying the fetch failure, which comes first).
   */
  lemma UnsupportedFormatAfterFetch<V>(env: Environment<V>, serviceUrl: string, tags: FormatTags, crs1: Crs, crs2: Crs, format: string)
    requires format != tags.javascript && format != tags.python
    ensures var query := Query(env.encode, serviceUrl, crs1, crs2, format);
      var a := CreateOperation(env, serviceUrl, tags, crs1, crs2, format);
      a.requests == [query] &&
      a.result == Threw(FactoryException(
        match env.getText(query)
        case FetchError(m) => m
        case Text(_) => UnsupportedFormatPrefix + format))
  {
  }

  /** A failed fetch or a failed evaluation comes out as a `FactoryException` with the same message. */
  lemma FailuresRewrapped<V>(env: Environment<V>, serviceUrl: string, tags: FormatTags, crs1: Crs, crs2: Crs, format: string)
    ensures var query := Query(env.encode, serviceUrl, crs1, crs2, format);
      var r := CreateOperation(env, serviceUrl, tags, crs1, crs2, format).result;
      (env.getText(query).FetchError? ==> r == Threw(FactoryException(env.getText(query).message))) &&
      (env.getText(query).Text? && DialectOf(tags, format).Some? &&
       Compile(env, DialectOf(tags, format).value, env.getText(query).body).Failure? ==>
         r == Threw(FactoryException(Compile(env, DialectOf(tags, format).value, env.getText(query).body).message)))
  {
  }
}
