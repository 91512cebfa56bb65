/**
 * Values crossing the boundary between the embedded script engine and the
 * native host: the payload values an event carries, the arguments a script
 * passes to a native callback, and C strings.
 */
module Values {

  /** A payload value (a rapidjson value).  Floating-point numbers are not modelled. */
  datatype Value =
    | Null
    | Bool(b: bool)
    | Int(i: int)
    | Str(s: string)
    | Array(elems: seq<Value>)
    | Object(members: seq<Member>)

  datatype Member = Member(name: string, value: Value)

  /** One argument of a script-side call into a native callback. */
  datatype ScriptArg =
    | JsString(s: string)
    | JsFunction(fn: nat)
    | JsOther(v: Value)

  /** A NUL-terminated C string: its characters never include NUL. */
  predicate NoNul(s: string) {
    forall i :: 0 <= i < |s| ==> s[i] != '\0'
  }

  type CString = s: string | NoNul(s) witness ""

  /**
   * The C string a script string turns into once it is read through a
   * `char*`: everything before the first NUL.
   */
  function CStr(s: string): (c: CString)
    ensures |c| <= |s| && s[..|c|] == c
    ensures |c| == |s| || s[|c|] == '\0'
  {
    if s == [] then ""
    else if s[0] == '\0' then ""
    else
      var rest := CStr(s[1..]);
      assert NoNul([s[0]] + rest);
      [s[0]] + rest
  }

  lemma {:induction false} CStrOfCString(s: CString)
    ensures CStr(s) == s
  {
    if s != [] {
      var t: CString := s[1..];
      CStrOfCString(t);
    }
  }
}
