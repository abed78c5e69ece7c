/**
 * The public types of the STM32F401 EXTI driver header: the line enumeration,
 * the edge enumeration, the callback type and the driver's return code.
 */
module ExtiTypes {

  datatype Option<T> = None | Some(value: T)

  /** Return code of every validate-then-act operation. */
  datatype ReturnType = RetOk | RetNotOk

  /**
   * A user callback. Its body is not part of the model: it is identified by
   * an opaque id, and a call is recorded rather than executed. A NULL
   * function pointer is `None` in an `Option<HandlerId>`.
   */
  type HandlerId = nat

  /** The enumerants of `Exti_Line_e`: lines 0 to 18, 21 and 22. */
  datatype ExtiLine =
    | Line0 | Line1 | Line2 | Line3 | Line4 | Line5 | Line6 | Line7
    | Line8 | Line9 | Line10 | Line11 | Line12 | Line13 | Line14 | Line15
    | Line16 | Line17 | Line18 | Line21 | Line22
  {
    /** The unsigned numeric value the header gives the enumerant. */
    function Value(): bv32 {
      match this
      case Line0 => 0 case Line1 => 1 case Line2 => 2 case Line3 => 3
      case Line4 => 4 case Line5 => 5 case Line6 => 6 case Line7 => 7
      case Line8 => 8 case Line9 => 9 case Line10 => 10 case Line11 => 11
      case Line12 => 12 case Line13 => 13 case Line14 => 14 case Line15 => 15
      case Line16 => 16 case Line17 => 17 case Line18 => 18
      case Line21 => 21 case Line22 => 22
    }
  }

  /** Every enumerant of `Exti_Line_e`, in declaration order. */
  const AllLines: seq<ExtiLine> :=
    [Line0, Line1, Line2, Line3, Line4, Line5, Line6, Line7, Line8, Line9,
     Line10, Line11, Line12, Line13, Line14, Line15, Line16, Line17, Line18,
     Line21, Line22]

  /** The enumerant whose value is `n`, if there is one. */
  function LineFromValue(n: bv32): (r: Option<ExtiLine>)
    ensures r.Some? ==> r.value.Value() == n
  {
    if n == 0 then Some(Line0) else if n == 1 then Some(Line1)
    else if n == 2 then Some(Line2) else if n == 3 then Some(Line3)
    else if n == 4 then Some(Line4) else if n == 5 then Some(Line5)
    else if n == 6 then Some(Line6) else if n == 7 then Some(Line7)
    else if n == 8 then Some(Line8) else if n == 9 then Some(Line9)
    else if n == 10 then Some(Line10) else if n == 11 then Some(Line11)
    else if n == 12 then Some(Line12) else if n == 13 then Some(Line13)
    else if n == 14 then Some(Line14) else if n == 15 then Some(Line15)
    else if n == 16 then Some(Line16) else if n == 17 then Some(Line17)
    else if n == 18 then Some(Line18) else if n == 21 then Some(Line21)
    else if n == 22 then Some(Line22) else None
  }

  /** Decoding an enumerant's value gives back the enumerant. */
  lemma LineValueRoundTrip(l: ExtiLine)
    ensures LineFromValue(l.Value()) == Some(l)
  {
  }

  /** There is an enumerant for n exactly when n is 0..18, 21 or 22. */
  lemma LineEnumerantValues(n: bv32)
    ensures LineFromValue(n).Some? <==> (n <= 18 || n == 21 || n == 22)
  {
  }

  /** `AllLines` lists every enumerant of the 21-member enumeration. */
  lemma AllLinesComplete(l: ExtiLine)
    ensures |AllLines| == 21
    ensures l in AllLines
  {
  }

  /** `AllLines` is in strictly increasing value order, so no enumerant is listed twice. */
  lemma AllLinesAscending(i: nat)
    requires i + 1 < |AllLines|
    ensures AllLines[i].Value() < AllLines[i + 1].Value()
  {
    // Splitting the index range in two keeps each half's case analysis small.
    if i < 10 {
    } else {
    }
  }

  /** The enumerants of `Exti_Edge_e`. */
  datatype Edge = Fall | Rise | FallRise
  {
    /** The numeric value the header gives the enumerant. */
    function Code(): int {
      match this
      case Fall => 0
      case Rise => 1
      case FallRise => 2
    }
  }

  /** The edge enumerant whose value is `code`, if there is one. */
  function EdgeFromCode(code: int): (r: Option<Edge>)
    ensures r.Some? ==> r.value.Code() == code
    ensures r.None? ==> code != 0 && code != 1 && code != 2
  {
    if code == 0 then Some(Fall)
    else if code == 1 then Some(Rise)
    else if code == 2 then Some(FallRise)
    else None
  }

  /** `Exti_Edge_e` has exactly the three values 0, 1 and 2, and decoding inverts `Code`. */
  lemma EdgeCodeRoundTrip(e: Edge)
    ensures EdgeFromCode(e.Code()) == Some(e)
    ensures 0 <= e.Code() <= 2
  {
  }
}
