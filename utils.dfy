/**
 * Response envelopes, input sanitising and OTP shaping
 * (packages/service/utils/index.ts). The UUID an OTP is cut from is a
 * parameter.
 */
module Utils {

  import opened Wrappers
  import opened Strings
  import opened Json
  import opened ServiceTypes

  /** `ApiResponse<T>`; a field left `undefined` is `None`. */
  datatype ApiResponse<T> = ApiResponse(
    success: bool,
    data: Option<T>,
    message: Option<string>,
    error: Option<string>)

  /** `createApiResponse(success, data?, message?, error?)`. */
  function CreateApiResponse<T>(success: bool, data: Option<T>, message: Option<string>, error: Option<string>): (r: ApiResponse<T>)
    ensures r.success == success && r.data == data && r.message == message && r.error == error
  {
    ApiResponse(success, data, message, error)
  }

  function CreateSuccessResponse<T>(data: T, message: Option<string>): (r: ApiResponse<T>)
    ensures r.success && r.error.None?
    ensures r.data == Some(data) && r.message == message
  {
    CreateApiResponse(true, Some(data), message, None)
  }

  function CreateErrorResponse<T>(error: string): (r: ApiResponse<T>)
    ensures !r.success && r.data.None? && r.message.None?
    ensures r.error == Some(error)
  {
    CreateApiResponse(false, None, None, Some(error))
  }

  /** The envelope as `res.json` serialises it: `undefined` members are omitted, the rest keep their order. */
  function ToJson(r: ApiResponse<Json>): (j: Json)
    ensures j.JObj? && |j.fields| >= 1 && j.fields[0] == ("success", JBool(r.success))
  {
    JObj([("success", JBool(r.success))]
      + (if r.data.Some? then [("data", r.data.value)] else [])
      + OptStr("message", r.message)
      + OptStr("error", r.error))
  }

  /** Reads an envelope back from its JSON form. */
  function FromJson(j: Json): Option<ApiResponse<Json>> {
    if !j.JObj? then None
    else
      match Get(j.fields, "success")
      case Some(JBool(b)) =>
        Some(ApiResponse(b, Get(j.fields, "data"), StrField(j.fields, "message"), StrField(j.fields, "error")))
      case _ => None
  }

  function StrField(fs: seq<Field>, key: string): Option<string> {
    var v := Get(fs, key);
    if v.Some? && v.value.JStr? then Some(v.value.s) else None
  }

  /** Serialising an envelope loses nothing. */
  lemma EnvelopeRoundTrip(r: ApiResponse<Json>)
    ensures FromJson(ToJson(r)) == Some(r)
  {
    var fs := ToJson(r).fields;
    EnvelopeLookups(r);
    StrFieldOf(fs, "message", r.message);
    StrFieldOf(fs, "error", r.error);
  }

  lemma StrFieldOf(fs: seq<Field>, key: string, v: Option<string>)
    requires Get(fs, key) == if v.Some? then Some(JStr(v.value)) else None
    ensures StrField(fs, key) == v
  {
  }

  lemma EnvelopeLookups(r: ApiResponse<Json>)
    ensures Get(ToJson(r).fields, "success") == Some(JBool(r.success))
    ensures Get(ToJson(r).fields, "data") == r.data
    ensures Get(ToJson(r).fields, "message") == if r.message.Some? then Some(JStr(r.message.value)) else None
    ensures Get(ToJson(r).fields, "error") == if r.error.Some? then Some(JStr(r.error.value)) else None
  {
    var d: seq<Field> := if r.data.Some? then [("data", r.data.value)] else [];
    var m, e := OptStr("message", r.message), OptStr("error", r.error);
    var fs := ToJson(r).fields;
    assert fs == [("success", JBool(r.success))] + (d + (m + e));
    assert fs[1..] == d + (m + e);
    GetOptional(d, m + e, "data", r.data);
    GetOptional(d, m + e, "message", None);
    GetOptional(d, m + e, "error", None);
    GetOptional(m, e, "message", if r.message.Some? then Some(JStr(r.message.value)) else None);
    GetOptional(m, e, "error", None);
    GetOptional(m, e, "data", None);
    GetOptional(e, [], "data", None);
    GetOptional(e, [], "message", None);
    GetOptional(e, [], "error", if r.error.Some? then Some(JStr(r.error.value)) else None);
    assert e + [] == e;
  }

  /**
   * Looking a key up in `a + b`, where `a` is empty or a single field: the
   * field when it carries the key, else the lookup in `b`.
   */
  lemma GetOptional(a: seq<Field>, b: seq<Field>, k: string, v: Option<Json>)
    requires |a| <= 1
    requires a == [] ==> v == None
    requires a != [] && a[0].0 == k ==> v == Some(a[0].1)
    requires a != [] && a[0].0 != k ==> v == None
    ensures Get(a + b, k) == if v.Some? then v else Get(b, k)
  {
    if a != [] {
      assert (a + b)[1..] == b;
    } else {
      assert a + b == b;
    }
  }

  /** The JSON an error envelope produces: just `success: false` and the error. */
  lemma ErrorEnvelopeJson(e: string)
    ensures ToJson(CreateErrorResponse(e)) == JObj([("success", JBool(false)), ("error", JStr(e))])
  {
  }

  /** `createServiceError(message, statusCode = 500, code?, details?)`. */
  method CreateServiceError(message: string, statusCode: Option<int>, code: Option<string>, details: Option<Json>)
    returns (e: ServiceError)
    ensures fresh(e)
    ensures e.name == "ServiceError" && e.message == message
    ensures e.statusCode == if statusCode.Some? then statusCode.value else 500
    ensures e.code == code && e.details == details
  {
    e := new ServiceError(message, statusCode, code, details);
  }

  // ---------------------------------------------------------------------
  // sanitizeInput
  // ---------------------------------------------------------------------

  predicate IsAngle(c: char) { c == '<' || c == '>' }

  /** `input.replace(/[<>]/g, '').trim()`. */
  function SanitizeInput(input: string): (r: string)
    ensures forall i :: 0 <= i < |r| ==> !IsAngle(r[i])
    ensures TrimmedFrom(Remove(input, IsAngle), r)
  {
    var removed := Remove(input, IsAngle);
    TrimPreserves(removed, IsAngle);
    TrimCutsOuterWhitespace(removed);
    Trim(removed)
  }

  /** Sanitising twice changes nothing more. */
  lemma SanitizeIdempotent(input: string)
    ensures SanitizeInput(SanitizeInput(input)) == SanitizeInput(input)
  {
    SanitizeKeepsCleanInput(SanitizeInput(input));
  }

  /** Input already free of brackets and outer whitespace passes through unchanged. */
  lemma SanitizeKeepsCleanInput(input: string)
    requires forall i :: 0 <= i < |input| ==> !IsAngle(input[i])
    requires input == [] || (!IsJsWhitespace(input[0]) && !IsJsWhitespace(input[|input| - 1]))
    ensures SanitizeInput(input) == input
  {
    RemoveNothing(input, IsAngle);
    TrimKeepsTrimmed(input);
  }

  /** Whitespace that only becomes outer once a bracket is removed is trimmed too. */
  lemma SanitizeTrimsAfterRemoval(core: string)
    requires core == [] || (!IsJsWhitespace(core[0]) && !IsJsWhitespace(core[|core| - 1]))
    requires forall i :: 0 <= i < |core| ==> !IsAngle(core[i])
    ensures SanitizeInput("< " + core + " >") == core
  {
    RemoveBrackets(core);
    TrimSpaces(core);
  }

  lemma RemoveBrackets(core: string)
    requires forall i :: 0 <= i < |core| ==> !IsAngle(core[i])
    ensures Remove("< " + core + " >", IsAngle) == " " + core + " "
  {
    RemoveNothing(core, IsAngle);
    RemoveOpening();
    RemoveClosing();
    RemoveAround("< ", core, " >", IsAngle);
  }

  lemma RemoveOpening()
    ensures Remove("< ", IsAngle) == " "
  {
    assert "< " == ['<', ' '];
    RemovePair('<', ' ');
  }

  lemma RemoveClosing()
    ensures Remove(" >", IsAngle) == " "
  {
    assert " >" == [' ', '>'];
    RemovePair(' ', '>');
  }

  lemma RemoveAround(a: string, core: string, b: string, drop: char -> bool)
    ensures Remove(a + core + b, drop) == Remove(a, drop) + Remove(core, drop) + Remove(b, drop)
  {
    RemoveAppend(a + core, b, drop);
    RemoveAppend(a, core, drop);
  }

  lemma RemovePair(a: char, b: char)
    ensures Remove([a, b], IsAngle) == (if IsAngle(a) then [] else [a]) + (if IsAngle(b) then [] else [b])
  {
    assert [a, b] == [a] + [b];
    RemoveAppend([a], [b], IsAngle);
    RemoveOne(a, IsAngle);
    RemoveOne(b, IsAngle);
  }

  lemma TrimSpaces(core: string)
    requires core == [] || (!IsJsWhitespace(core[0]) && !IsJsWhitespace(core[|core| - 1]))
    ensures Trim(" " + core + " ") == core
  {
    var t := " " + core + " ";
    assert t[1..] == core + " ";
    assert TrimStart(t) == TrimStart(core + " ");
    var u := core + " ";
    if core == [] {
      assert u[1..] == [];
      assert TrimStart(u) == [];
    } else {
      assert TrimStart(u) == u;
      assert u[..|u| - 1] == core;
      assert TrimEnd(u) == TrimEnd(core);
    }
  }

  // ---------------------------------------------------------------------
  // generateOTP
  // ---------------------------------------------------------------------

  predicate NotDigit(c: char) { !IsDigit(c) }

  const OtpLength := 6

  /** `uuid.replace(/\D/g, '').slice(0, 6).padEnd(6, '0')`, for the UUID drawn by the caller. */
  function GenerateOtp(uuid: string): (r: string)
    ensures |r| == OtpLength && AllDigits(r)
    ensures var d := Remove(uuid, NotDigit);
      (forall i :: 0 <= i < OtpLength && i < |d| ==> r[i] == d[i]) &&
      (forall i :: |d| <= i < OtpLength ==> r[i] == '0')
  {
    var digits := Remove(uuid, NotDigit);
    var head := if |digits| <= OtpLength then digits else digits[..OtpLength];
    PadEnd(head, OtpLength, '0')
  }

  /** A UUID with at least six digits yields exactly its first six. */
  lemma OtpIsFirstSixDigits(uuid: string)
    requires |Remove(uuid, NotDigit)| >= OtpLength
    ensures GenerateOtp(uuid) == Remove(uuid, NotDigit)[..OtpLength]
  {
  }
}
