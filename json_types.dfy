/**
 * Tri-state configuration fields: `JSONbool` and `JSONstring` tell apart a key
 * that is absent (`isSet` false), a key explicitly `null` (`isSet` true, `valid`
 * false) and a key with a value (`isSet` and `valid` true).  Each is a small
 * state machine driven by its `UnmarshalJSON` method.
 */
module JsonTypes {
  import opened Wrappers

  newtype byte = x: int | 0 <= x < 256

  /** Why the nested `json.Unmarshal` rejected the raw bytes. */
  datatype DecodeError = InvalidValue

  /** The three fields every tri-state type carries. */
  datatype Field<T> = Field(value: T, valid: bool, isSet: bool)

  /** The zero struct: what a field holds when its key never appeared. */
  function Absent<T>(zero: T): Field<T> {
    Field(zero, false, false)
  }

  /** The bytes `null`. */
  const NullLiteral: seq<byte> := [0x6E, 0x75, 0x6C, 0x6C]
  /** The bytes `true`. */
  const TrueLiteral: seq<byte> := [0x74, 0x72, 0x75, 0x65]
  /** The bytes `false`. */
  const FalseLiteral: seq<byte> := [0x66, 0x61, 0x6C, 0x73, 0x65]

  /**
   * `json.Unmarshal` into a fresh `bool` (which starts out false): the two
   * literals decode to themselves; `null` is a no-op without error, so the
   * variable keeps false; any other token fails.
   */
  function DecodeBool(data: seq<byte>): Option<bool> {
    if data == TrueLiteral then Some(true)
    else if data == FalseLiteral || data == NullLiteral then Some(false)
    else None
  }

  /** The JSON text of a boolean, the inverse of DecodeBool. */
  function EncodeBool(b: bool): seq<byte> {
    if b then TrueLiteral else FalseLiteral
  }

  lemma DecodeBoolRoundTrip(b: bool)
    ensures DecodeBool(EncodeBool(b)) == Some(b)
    ensures DecodeBool(NullLiteral) == Some(false)
  {
  }

  /**
   * One `UnmarshalJSON` call on a field in state `f`, given the outcome `decoded`
   * of the nested `json.Unmarshal` on `data`.  Yields the new fields and the
   * returned error.
   */
  function Step<T>(f: Field<T>, data: seq<byte>, decoded: Option<T>, zero: T): (Field<T>, Option<DecodeError>) {
    if data == NullLiteral then (Field(zero, false, true), None)
    else if decoded.None? then (f.(isSet := true), Some(InvalidValue))
    else (Field(decoded.value, true, true), None)
  }

  /** The invariant the flags keep: a field can only hold a value once its key was seen. */
  predicate WellFormed<T>(f: Field<T>) {
    f.valid ==> f.isSet
  }

  /** The three states the flags encode. */
  datatype Presence<T> = Unset | Null | Present(value: T)

  /** The state of a well-formed field, read from its flags. */
  function View<T>(f: Field<T>): (p: Presence<T>)
    requires WellFormed(f)
    ensures p.Unset? <==> !f.isSet
    ensures p.Null? <==> f.isSet && !f.valid
    ensures p.Present? <==> f.valid
    ensures p.Present? ==> p.value == f.value
  {
    if !f.isSet then Unset else if !f.valid then Null else Present(f.value)
  }

  /** After any call `isSet` is true, also when the call returned an error. */
  lemma StepMarksSet<T>(f: Field<T>, data: seq<byte>, decoded: Option<T>, zero: T)
    ensures Step(f, data, decoded, zero).0.isSet
  {
  }

  /** Exactly `null` clears the field to the zero value, invalid, with no error. */
  lemma StepNull<T>(f: Field<T>, decoded: Option<T>, zero: T)
    ensures Step(f, NullLiteral, decoded, zero) == (Field(zero, false, true), None)
    ensures View(Step(f, NullLiteral, decoded, zero).0) == Null
  {
  }

  /** A successful non-null decode stores the decoded value and marks it valid. */
  lemma StepDecoded<T>(f: Field<T>, data: seq<byte>, v: T, zero: T)
    requires data != NullLiteral
    ensures Step(f, data, Some(v), zero) == (Field(v, true, true), None)
    ensures View(Step(f, data, Some(v), zero).0) == Present(v)
  {
  }

  /** A decode failure returns the error and keeps `value` and `valid` as they were. */
  lemma StepFailed<T>(f: Field<T>, data: seq<byte>, zero: T)
    requires data != NullLiteral
    ensures Step(f, data, None, zero).1 == Some(InvalidValue)
    ensures Step(f, data, None, zero).0 == f.(isSet := true)
  {
  }

  /** A failed decode of an absent key leaves it reading as an explicit `null`. */
  lemma FailedDecodeOfAbsentReadsNull<T>(data: seq<byte>, zero: T)
    requires data != NullLiteral
    ensures View(Step(Absent(zero), data, None, zero).0) == Null
  {
  }

  /** Every call keeps `valid ==> isSet`, and `isSet` never goes back to false. */
  lemma StepPreservesWellFormed<T>(f: Field<T>, data: seq<byte>, decoded: Option<T>, zero: T)
    requires WellFormed(f)
    ensures WellFormed(Step(f, data, decoded, zero).0)
    ensures f.isSet ==> Step(f, data, decoded, zero).0.isSet
  {
  }

  /** Decoding the same bytes twice leaves the state decoding them once leaves. */
  lemma StepIdempotent<T>(f: Field<T>, data: seq<byte>, decoded: Option<T>, zero: T)
    ensures Step(Step(f, data, decoded, zero).0, data, decoded, zero) == Step(f, data, decoded, zero)
  {
  }

  /** The state after a sequence of calls, each given its bytes and decode outcome. */
  function Replay<T>(f: Field<T>, calls: seq<(seq<byte>, Option<T>)>, zero: T): Field<T>
    decreases |calls|
  {
    if |calls| == 0 then f
    else Step(Replay(f, calls[..|calls| - 1], zero), calls[|calls| - 1].0, calls[|calls| - 1].1, zero).0
  }

  /**
   * Starting from the zero struct, every run of calls reaches a well-formed
   * state, so the flags always denote one of the three states; and after at
   * least one call the key reads as seen.
   */
  lemma {:induction false} ReplayFromAbsent<T>(calls: seq<(seq<byte>, Option<T>)>, zero: T)
    ensures WellFormed(Replay(Absent(zero), calls, zero))
    ensures |calls| > 0 ==> Replay(Absent(zero), calls, zero).isSet
    decreases |calls|
  {
    if |calls| > 0 {
      var prefix := calls[..|calls| - 1];
      ReplayFromAbsent(prefix, zero);
      StepPreservesWellFormed(Replay(Absent(zero), prefix, zero), calls[|calls| - 1].0, calls[|calls| - 1].1, zero);
    }
  }

  /** `JSONbool`: a boolean that remembers whether its key was absent or `null`. */
  class JsonBool {
    var value: bool
    var valid: bool
    var isSet: bool

    /** The fields as a value. */
    function Fields(): Field<bool>
      reads this
    {
      Field(value, valid, isSet)
    }

    /** The zero struct, as Go allocates it before decoding. */
    constructor ()
      ensures Fields() == Absent(false)
    {
      value, valid, isSet := false, false, false;
    }

    /** `UnmarshalJSON`: mark the key seen, then handle `null`, a decode failure or a value. */
    method UnmarshalJson(data: seq<byte>) returns (err: Option<DecodeError>)
      modifies this
      ensures (Fields(), err) == Step(old(Fields()), data, DecodeBool(data), false)
    {
      isSet := true;
      if data == NullLiteral {
        valid := false;
        value := false;
        return None;
      }
      var temp := DecodeBool(data);
      if temp.None? {
        return Some(InvalidValue);
      }
      value := temp.value;
      valid := true;
      return None;
    }
  }

  /**
   * `JSONstring`: a string that remembers whether its key was absent or `null`.
   * The unescaping of a JSON string literal is the parameter `decode`.
   */
  class JsonString {
    var value: string
    var valid: bool
    var isSet: bool

    /** The fields as a value. */
    function Fields(): Field<string>
      reads this
    {
      Field(value, valid, isSet)
    }

    /** The zero struct, as Go allocates it before decoding. */
    constructor ()
      ensures Fields() == Absent("")
    {
      value, valid, isSet := "", false, false;
    }

    /** `UnmarshalJSON`: mark the key seen, then handle `null`, a decode failure or a value. */
    method UnmarshalJson(data: seq<byte>, decode: seq<byte> -> Option<string>) returns (err: Option<DecodeError>)
      modifies this
      ensures (Fields(), err) == Step(old(Fields()), data, decode(data), "")
    {
      isSet := true;
      if data == NullLiteral {
        valid := false;
        value := "";
        return None;
      }
      var temp := decode(data);
      if temp.None? {
        return Some(InvalidValue);
      }
      value := temp.value;
      valid := true;
      return None;
    }
  }
}
