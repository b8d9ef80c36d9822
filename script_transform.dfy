/**
 * The math transform the client factory hands out: it forwards each point
 * to an operation object living in an embedded script engine and copies the
 * engine's answer back into the caller's buffer. Coordinates are only copied,
 * never computed on, so they are an opaque type `V`. The engine is an oracle:
 * a JavaScript engine is called with the coordinate array itself, a Python
 * engine evaluates a call text in which each coordinate is written out.
 */
module ScriptTransform {
  import opened Basics
  import opened Strings

  /**
   * One element of the list the script returns: a number (as the double it
   * unboxes to), null (a script `null` or `None`), or any other object.
   */
  datatype Item<V> = Number(value: V) | Null | NotNumber

  /**
   * What a script call gives back: a value that casts to `java.util.List`
   * (`None` being null), some other object, or a `ScriptException` /
   * `NoSuchMethodException` with its message.
   */
  datatype Reply<V> = Returned(list: Option<seq<Item<V>>>) | NotAList | ScriptError(message: string)

  /** The two engine kinds the factory can create, each with its calling convention. */
  datatype Engine<!V> =
    | JavaScriptEngine(invoke: seq<V> -> Reply<V>)
    | PythonEngine(eval: string -> Reply<V>, literal: V -> string)

  /** Unchecked exceptions that escape `transform` (the catch clause does not take them). */
  datatype Unchecked = NullPointer | IndexOutOfBounds | ArrayIndexOutOfBounds | ClassCast

  /** How `transform` ends: returning null (no derivative matrix), throwing a `TransformException`, or letting an unchecked exception out. */
  datatype Outcome = NoMatrix | TransformException(message: string) | Escaped(failure: Unchecked)

  /** The whole visible effect of one `transform` call: its outcome, the destination buffer after it, and the coordinates the engine was called with, if it was. */
  datatype Effect<V> = Effect(outcome: Outcome, dst: seq<V>, engineInput: Option<seq<V>>)

  const DerivateMessage: string := "Derivate not supported"
  const PythonHead: string := "Operation().transform(["
  const PythonTail: string := "])"

  /** The literals `Arrays.toString` writes for the coordinates, in order. */
  function Literals<V>(literal: V -> string, coords: seq<V>): (r: seq<string>)
    ensures |r| == |coords|
    ensures forall i :: 0 <= i < |coords| ==> r[i] == literal(coords[i])
  {
    seq(|coords|, i requires 0 <= i < |coords| => literal(coords[i]))
  }

  /** The Python text that calls the operation on the coordinates: `Arrays.toString` of the array inside a fixed call. */
  function PythonCall<V>(literal: V -> string, coords: seq<V>): (text: string)
  {
    PythonHead + Join(Literals(literal, coords), ", ") + PythonTail
  }

  /**
   * The call text lists the coordinates' literals in order: cutting the text
   * between the brackets at its commas gives each literal, all but the first
   * after the blank `Arrays.toString` puts behind each comma.
   */
  lemma PythonCallLists<V>(literal: V -> string, coords: seq<V>)
    requires |coords| >= 1
    requires forall i :: 0 <= i < |coords| ==> ',' !in literal(coords[i])
    ensures var text := PythonCall(literal, coords);
      |PythonHead| + |PythonTail| <= |text| &&
      text[..|PythonHead|] == PythonHead &&
      text[|text| - |PythonTail|..] == PythonTail &&
      Fields(text[|PythonHead|..|text| - |PythonTail|], ',') == Padded(Literals(literal, coords), " ")
  {
    var lits := Literals(literal, coords);
    var body := Join(lits, ", ");
    var text := PythonCall(literal, coords);
    assert text[|PythonHead|..|text| - |PythonTail|] == body;
    JoinWideSeparator(lits, ',', " ");
    assert [','] + " " == ", ";
    assert forall i :: 0 <= i < |lits| ==> ',' !in Padded(lits, " ")[i] by {
      forall i | 0 <= i < |lits| ensures ',' !in Padded(lits, " ")[i] {
        if i > 0 {
          assert Padded(lits, " ")[i] == " " + lits[i];
        }
      }
    }
    FieldsOfJoin(Padded(lits, " "), ',');
  }

  /** `src[so .. so + n)` can be read without leaving the array (nothing is read when `n` is 0). */
  predicate WindowInBounds(length: nat, so: int, n: nat)
  {
    n == 0 || (0 <= so && so + n <= length)
  }

  /** The coordinates the copy loop puts in the argument array. */
  function Window<V>(src: seq<V>, so: int, n: nat): (w: seq<V>)
    requires WindowInBounds(|src|, so, n)
    ensures |w| == n
    ensures forall k :: 0 <= k < n ==> w[k] == src[so + k]
  {
    if n == 0 then [] else src[so..so + n]
  }

  /**
   * The copy loop of `transform`: `src[so + i]` for `i` below `n`, read in
   * order, or nothing when one of those indices is outside `src`.
   */
  method CopyWindow<V>(src: array<V>, so: int, n: nat) returns (coords: Option<seq<V>>)
    ensures coords.Some? <==> WindowInBounds(src.Length, so, n)
    ensures coords.Some? ==> coords.value == Window(src[..], so, n)
  {
    var read: seq<V> := [];
    var i := 0;
    while i < n
      invariant 0 <= i <= n
      invariant i > 0 ==> 0 <= so && so + i <= src.Length
      invariant |read| == i
      invariant forall k :: 0 <= k < i ==> read[k] == src[so + k]
    {
      if so + i < 0 || so + i >= src.Length {
        return None;
      }
      read := read + [src[so + i]];
      i := i + 1;
    }
    return Some(read);
  }

  /**
   * The exception step `i` of the write-back loop throws, if any. Java
   * evaluates `((Number) result.get(i)).doubleValue()` before it checks the
   * index into `dst`, so a missing list, a short list, a non-number and a
   * null element win over a destination out of range. A null element passes
   * the cast and fails on `doubleValue()`.
   */
  function StepFailure<V>(list: Option<seq<Item<V>>>, dstLength: nat, doffset: int, i: nat): (r: Option<Unchecked>)
    ensures r == Some(NullPointer) <==> list.None? || (i < |list.value| && list.value[i].Null?)
    ensures r == Some(IndexOutOfBounds) <==> list.Some? && |list.value| <= i
    ensures r == Some(ClassCast) <==> list.Some? && i < |list.value| && list.value[i].NotNumber?
    ensures r == Some(ArrayIndexOutOfBounds) <==>
      list.Some? && i < |list.value| && list.value[i].Number? && !(0 <= doffset + i < dstLength)
    ensures r.None? <==>
      list.Some? && i < |list.value| && list.value[i].Number? && 0 <= doffset + i < dstLength
  {
    if list.None? then Some(NullPointer)
    else if i >= |list.value| then Some(IndexOutOfBounds)
    else if list.value[i].NotNumber? then Some(ClassCast)
    else if list.value[i].Null? then Some(NullPointer)
    else if doffset + i < 0 || doffset + i >= dstLength then Some(ArrayIndexOutOfBounds)
    else None
  }

  /** How many of the first `n` steps of the write-back loop complete: the index of the first failing step, or `n`. */
  function Completed<V>(list: Option<seq<Item<V>>>, dstLength: nat, doffset: int, n: nat): (k: nat)
    ensures k <= n
    ensures forall i :: 0 <= i < k ==> StepFailure(list, dstLength, doffset, i).None?
    ensures k < n ==> StepFailure(list, dstLength, doffset, k).Some?
  {
    if n == 0 then 0
    else
      var k := Completed(list, dstLength, doffset, n - 1);
      if k < n - 1 then k
      else if StepFailure(list, dstLength, doffset, n - 1).Some? then n - 1
      else n
  }

  /** The first failing step is where the write-back loop stops. */
  lemma {:induction false} CompletedAtFailure<V>(list: Option<seq<Item<V>>>, dstLength: nat, doffset: int, n: nat, j: nat)
    requires j < n
    requires forall m :: 0 <= m < j ==> StepFailure(list, dstLength, doffset, m).None?
    requires StepFailure(list, dstLength, doffset, j).Some?
    ensures Completed(list, dstLength, doffset, n) == j
    decreases n
  {
    if j < n - 1 {
      CompletedAtFailure(list, dstLength, doffset, n - 1, j);
    }
  }

  /** The destination after the first `k` steps stored their list elements at `doffset ..`. */
  function Written<V>(dst: seq<V>, list: Option<seq<Item<V>>>, doffset: int, k: nat): (r: seq<V>)
    requires forall i :: 0 <= i < k ==> StepFailure(list, |dst|, doffset, i).None?
    ensures |r| == |dst|
    ensures forall i :: 0 <= i < k ==> StepFailure(list, |dst|, doffset, i).None? && r[doffset + i] == list.value[i].value
    ensures forall j :: 0 <= j < |dst| && !(doffset <= j < doffset + k) ==> r[j] == dst[j]
    decreases k
  {
    if k == 0 then dst
    else
      assert StepFailure(list, |dst|, doffset, k - 1).None?;
      Written(dst, list, doffset, k - 1)[doffset + k - 1 := list.value[k - 1].value]
  }

  /**
   * The write-back loop of `transform`: for `i` below `n`, store element `i`
   * of the list at `dst[doffset + i]`, stopping at the first step that
   * throws. The steps before it are kept in `dst`.
   */
  method WriteBack<V>(list: Option<seq<Item<V>>>, dst: array<V>, doffset: int, n: nat) returns (failure: Option<Unchecked>)
    modifies dst
    ensures var k := Completed(list, dst.Length, doffset, n);
      dst[..] == Written(old(dst[..]), list, doffset, k) &&
      failure == (if k == n then None else StepFailure(list, dst.Length, doffset, k))
  {
    var j := 0;
    while j < n
      invariant 0 <= j <= n
      invariant forall m :: 0 <= m < j ==> StepFailure(list, dst.Length, doffset, m).None?
      invariant dst[..] == Written(old(dst[..]), list, doffset, j)
    {
      if StepFailure(list, dst.Length, doffset, j).Some? {
        CompletedAtFailure(list, dst.Length, doffset, n, j);
      }
      if list.None? {
        return Some(NullPointer);
      }
      if j >= |list.value| {
        return Some(IndexOutOfBounds);
      }
      if list.value[j].NotNumber? {
        return Some(ClassCast);
      }
      if list.value[j].Null? {
        return Some(NullPointer);
      }
      if doffset + j < 0 || doffset + j >= dst.Length {
        return Some(ArrayIndexOutOfBounds);
      }
      dst[doffset + j] := list.value[j].value;
      j := j + 1;
    }
    return None;
  }

  /** The `JSMathTransform`: fixed dimensions and the engine holding the compiled operation. */
  datatype MathTransform<!V> = MathTransform(sourceDim: nat, targetDim: nat, engine: Engine<V>)
  {
    function SourceDimensions(): nat { sourceDim }

    function TargetDimensions(): nat { targetDim }

    /**
     * One engine call on the coordinates, by the engine's own convention: a
     * JavaScript engine gets the coordinate array itself, a Python engine the
     * call text `PythonCallLists` describes.
     */
    function Call(coords: seq<V>): (r: Reply<V>)
      ensures engine.JavaScriptEngine? ==> r == engine.invoke(coords)
      ensures engine.PythonEngine? ==> r == engine.eval(PythonCall(engine.literal, coords))
    {
      match engine
      case JavaScriptEngine(invoke) => invoke(coords)
      case PythonEngine(eval, literal) => eval(PythonCall(literal, coords))
    }

    /** What `transform(src, so, dst, doffset, derivate)` does, given the two arrays' contents. */
    function EffectOf(src: seq<V>, so: int, dst: seq<V>, doffset: int, derivate: bool): Effect<V>
    {
      if derivate then Effect(TransformException(DerivateMessage), dst, None)
      else if !WindowInBounds(|src|, so, sourceDim) then Effect(Escaped(ArrayIndexOutOfBounds), dst, None)
      else
        var coords := Window(src, so, sourceDim);
        match Call(coords)
        case ScriptError(m) => Effect(TransformException(m), dst, Some(coords))
        case NotAList => Effect(Escaped(ClassCast), dst, Some(coords))
        case Returned(list) =>
          var k := Completed(list, |dst|, doffset, targetDim);
          var outcome := if k == targetDim then NoMatrix else Escaped(StepFailure(list, |dst|, doffset, k).value);
          Effect(outcome, Written(dst, list, doffset, k), Some(coords))
    }

    /** Asking for the derivative fails before anything is read or called, and `dst` is untouched. */
    lemma DerivateRefused(src: seq<V>, so: int, dst: seq<V>, doffset: int)
      ensures EffectOf(src, so, dst, doffset, true) == Effect(TransformException(DerivateMessage), dst, None)
    {
    }

    /**
     * The engine is called exactly when no derivative is asked and the source
     * window is readable, and then with `src[so], ..., src[so + sourceDim - 1]`.
     */
    lemma EngineSeesWindow(src: seq<V>, so: int, dst: seq<V>, doffset: int, derivate: bool)
      ensures var e := EffectOf(src, so, dst, doffset, derivate);
        e.engineInput.Some? <==> !derivate && WindowInBounds(|src|, so, sourceDim)
      ensures var e := EffectOf(src, so, dst, doffset, derivate);
        e.engineInput.Some? ==>
          |e.engineInput.value| == sourceDim &&
          forall k :: 0 <= k < sourceDim ==> e.engineInput.value[k] == src[so + k]
    {
    }

    /** Whatever happens, `dst` keeps its length and changes only in `dst[doffset .. doffset + targetDim)`. */
    lemma DstFrame(src: seq<V>, so: int, dst: seq<V>, doffset: int, derivate: bool)
      ensures var e := EffectOf(src, so, dst, doffset, derivate);
        |e.dst| == |dst| &&
        forall j :: 0 <= j < |dst| && !(doffset <= j < doffset + targetDim) ==> e.dst[j] == dst[j]
    {
      if !derivate && WindowInBounds(|src|, so, sourceDim) {
        var reply := Call(Window(src, so, sourceDim));
        if reply.Returned? {
          var k := Completed(reply.list, |dst|, doffset, targetDim);
          assert EffectOf(src, so, dst, doffset, derivate).dst == Written(dst, reply.list, doffset, k);
        }
      }
    }

    /** A script or lookup failure is caught and rethrown as a `TransformException` with the same message; `dst` is untouched. */
    lemma ScriptErrorCaught(src: seq<V>, so: int, dst: seq<V>, doffset: int, message: string)
      requires WindowInBounds(|src|, so, sourceDim)
      requires Call(Window(src, so, sourceDim)) == ScriptError(message)
      ensures var e := EffectOf(src, so, dst, doffset, false);
        e.outcome == TransformException(message) && e.dst == dst
    {
    }

    /**
     * A list of at least `targetDim` numbers, with room for them in `dst`, is
     * copied into `dst[doffset ..]` and `transform` returns null; elements
     * past `targetDim` are ignored and every other slot of `dst` is kept.
     */
    lemma {:induction false} ResultWritten(src: seq<V>, so: int, dst: seq<V>, doffset: int, items: seq<Item<V>>)
      requires WindowInBounds(|src|, so, sourceDim)
      requires Call(Window(src, so, sourceDim)) == Returned(Some(items))
      requires targetDim <= |items| && forall i :: 0 <= i < targetDim ==> items[i].Number?
      requires targetDim == 0 || (0 <= doffset && doffset + targetDim <= |dst|)
      ensures var e := EffectOf(src, so, dst, doffset, false);
        e.outcome == NoMatrix &&
        |e.dst| == |dst| &&
        (forall i :: 0 <= i < targetDim ==> e.dst[doffset + i] == items[i].value) &&
        (forall j :: 0 <= j < |dst| && !(doffset <= j < doffset + targetDim) ==> e.dst[j] == dst[j])
    {
      var k := Completed(Some(items), |dst|, doffset, targetDim);
      if k < targetDim {
        assert false;
      }
    }

    /**
     * `transform` returns null only in the case `ResultWritten` describes (or,
     * with `targetDim` 0, for any list, even null).
     */
    lemma {:induction false} SucceedsOnlyWhenWritten(src: seq<V>, so: int, dst: seq<V>, doffset: int, derivate: bool)
      requires EffectOf(src, so, dst, doffset, derivate).outcome == NoMatrix
      ensures !derivate && WindowInBounds(|src|, so, sourceDim)
      ensures Call(Window(src, so, sourceDim)).Returned?
      ensures targetDim > 0 ==>
        var list := Call(Window(src, so, sourceDim)).list;
        list.Some? && targetDim <= |list.value| &&
        (forall i :: 0 <= i < targetDim ==> list.value[i].Number?) &&
        0 <= doffset && doffset + targetDim <= |dst|
    {
      var list := Call(Window(src, so, sourceDim)).list;
      var n := targetDim;
      assert Completed(list, |dst|, doffset, n) == n;
      if n > 0 {
        assert StepFailure(list, |dst|, doffset, 0).None?;
        assert StepFailure(list, |dst|, doffset, n - 1).None?;
        forall i | 0 <= i < n ensures list.value[i].Number? {
          assert StepFailure(list, |dst|, doffset, i).None?;
        }
      }
    }

    /**
     * A list shorter than `targetDim` fails with an unchecked
     * `IndexOutOfBoundsException` that the catch clause does not convert,
     * after the elements it does have were already stored into `dst`.
     */
    lemma {:induction false} ShortResultPartlyWritten(src: seq<V>, so: int, dst: seq<V>, doffset: int, items: seq<Item<V>>)
      requires WindowInBounds(|src|, so, sourceDim)
      requires Call(Window(src, so, sourceDim)) == Returned(Some(items))
      requires |items| < targetDim && forall i :: 0 <= i < |items| ==> items[i].Number?
      requires 0 <= doffset && doffset + |items| <= |dst|
      ensures var e := EffectOf(src, so, dst, doffset, false);
        e.outcome == Escaped(IndexOutOfBounds) &&
        |e.dst| == |dst| &&
        (forall i :: 0 <= i < |items| ==> e.dst[doffset + i] == items[i].value) &&
        (forall j :: 0 <= j < |dst| && !(doffset <= j < doffset + |items|) ==> e.dst[j] == dst[j])
    {
      var n := targetDim;
      var list := Some(items);
      forall m | 0 <= m < |items| ensures StepFailure(list, |dst|, doffset, m).None? {
      }
      CompletedAtFailure(list, |dst|, doffset, n, |items|);
    }

    /**
     * A null list, with at least one slot to fill, fails on its first
     * `get` with an unchecked `NullPointerException`; `dst` is untouched.
     */
    lemma {:induction false} NullResultEscapes(src: seq<V>, so: int, dst: seq<V>, doffset: int)
      requires WindowInBounds(|src|, so, sourceDim)
      requires Call(Window(src, so, sourceDim)) == Returned(None)
      requires targetDim > 0
      ensures var e := EffectOf(src, so, dst, doffset, false);
        e.outcome == Escaped(NullPointer) && e.dst == dst
    {
      CompletedAtFailure<V>(None, |dst|, doffset, targetDim, 0);
    }

    /**
     * A non-number at step `m` fails the `(Number)` cast with an unchecked
     * `ClassCastException`, never a `TransformException`, after the elements
     * before it were stored; the cast comes first even when `dst` has no
     * slot left for step `m`.
     */
    lemma {:induction false} NonNumberPartlyWritten(src: seq<V>, so: int, dst: seq<V>, doffset: int, items: seq<Item<V>>, m: nat)
      requires WindowInBounds(|src|, so, sourceDim)
      requires Call(Window(src, so, sourceDim)) == Returned(Some(items))
      requires m < targetDim && m < |items| && items[m].NotNumber?
      requires forall i :: 0 <= i < m ==> items[i].Number?
      requires 0 <= doffset && doffset + m <= |dst|
      ensures var e := EffectOf(src, so, dst, doffset, false);
        e.outcome == Escaped(ClassCast) &&
        |e.dst| == |dst| &&
        (forall i :: 0 <= i < m ==> e.dst[doffset + i] == items[i].value) &&
        (forall j :: 0 <= j < |dst| && !(doffset <= j < doffset + m) ==> e.dst[j] == dst[j])
    {
      var list := Some(items);
      forall i | 0 <= i < m ensures StepFailure(list, |dst|, doffset, i).None? {
      }
      CompletedAtFailure(list, |dst|, doffset, targetDim, m);
    }

    /**
     * A null element at step `m` passes the cast and fails on `doubleValue()`
     * with an unchecked `NullPointerException`, after the elements before it
     * were stored; this too comes before any check of `dst`.
     */
    lemma {:induction false} NullElementPartlyWritten(src: seq<V>, so: int, dst: seq<V>, doffset: int, items: seq<Item<V>>, m: nat)
      requires WindowInBounds(|src|, so, sourceDim)
      requires Call(Window(src, so, sourceDim)) == Returned(Some(items))
      requires m < targetDim && m < |items| && items[m].Null?
      requires forall i :: 0 <= i < m ==> items[i].Number?
      requires 0 <= doffset && doffset + m <= |dst|
      ensures var e := EffectOf(src, so, dst, doffset, false);
        e.outcome == Escaped(NullPointer) &&
        |e.dst| == |dst| &&
        (forall i :: 0 <= i < m ==> e.dst[doffset + i] == items[i].value) &&
        (forall j :: 0 <= j < |dst| && !(doffset <= j < doffset + m) ==> e.dst[j] == dst[j])
    {
      var list := Some(items);
      forall i | 0 <= i < m ensures StepFailure(list, |dst|, doffset, i).None? {
      }
      CompletedAtFailure(list, |dst|, doffset, targetDim, m);
    }

    /**
     * `getSourceDimensions` is the number of coordinates the engine is
     * called with; `getTargetDimensions` bounds the slots of `dst` a call
     * can change.
     */
    lemma DimensionsReported(src: seq<V>, so: int, dst: seq<V>, doffset: int, derivate: bool)
      ensures var e := EffectOf(src, so, dst, doffset, derivate);
        e.engineInput.Some? ==> |e.engineInput.value| == SourceDimensions()
      ensures var e := EffectOf(src, so, dst, doffset, derivate);
        forall j :: 0 <= j < |dst| && !(doffset <= j < doffset + TargetDimensions()) ==> e.dst[j] == dst[j]
    {
      EngineSeesWindow(src, so, dst, doffset, derivate);
      DstFrame(src, so, dst, doffset, derivate);
    }

    /**
     * `transform`: copy the source window into an argument array, call the
     * engine, store the first `targetDim` list elements at `dst[doffset ..]`.
     */
    method Transform(src: array<V>, so: int, dst: array<V>, doffset: int, derivate: bool)
      returns (outcome: Outcome, ghost engineInput: Option<seq<V>>)
      modifies dst
      ensures var e := EffectOf(old(src[..]), so, old(dst[..]), doffset, derivate);
        outcome == e.outcome && dst[..] == e.dst && engineInput == e.engineInput
      ensures src != dst ==> src[..] == old(src[..])
    {
      if derivate {
        return TransformException(DerivateMessage), None;
      }
      var window := CopyWindow(src, so, sourceDim);
      if window.None? {
        return Escaped(ArrayIndexOutOfBounds), None;
      }
      var coords := window.value;
      engineInput := Some(coords);
      var reply := Call(coords);
      if reply.ScriptError? {
        return TransformException(reply.message), engineInput;
      }
      if reply.NotAList? {
        return Escaped(ClassCast), engineInput;
      }
      var failure := WriteBack(reply.list, dst, doffset, targetDim);
      outcome := if failure.None? then NoMatrix else Escaped(failure.value);
    }
  }
}
