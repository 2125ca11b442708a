/**
 * Identifier shaping (packages/service/utils/private/uid-generator.ts).
 * The UUID that `generateUID` draws and the configured starting number of
 * `generateNextUID` are parameters.
 */
module UidGenerator {

  import opened Wrappers
  import opened Strings

  const IdLength := 10
  const DefaultPrefix := "GLMX"

  /** `prefix ? prefix.toUpperCase() : 'GLMX'`: an absent or empty prefix takes the default. */
  function UidPrefix(prefix: Option<string>): (pre: string)
    ensures prefix.Some? && prefix.value != "" ==> pre == ToUpper(prefix.value)
    ensures prefix.None? || prefix.value == "" ==> pre == DefaultPrefix
  {
    if prefix.Some? && prefix.value != "" then ToUpper(prefix.value) else DefaultPrefix
  }

  predicate IsDash(c: char) { c == '-' }

  /** `uuid.replace(/-/g, '').toUpperCase()`. */
  function RandomPart(uuid: string): (r: string)
    ensures forall i :: 0 <= i < |r| ==> r[i] != '-'
  {
    var stripped := Remove(uuid, IsDash);
    var r := ToUpper(stripped);
    UpperKeepsNonDash(stripped);
    r
  }

  /** The random part of a concatenation is the concatenation of the random parts. */
  lemma RandomPartAppend(a: string, b: string)
    ensures RandomPart(a + b) == RandomPart(a) + RandomPart(b)
  {
    RemoveAppend(a, b, IsDash);
    ToUpperAppend(Remove(a, IsDash), Remove(b, IsDash));
  }

  /** A `-` disappears; any other character is kept, uppercased. */
  lemma RandomPartOne(c: char)
    ensures RandomPart([c]) == if c == '-' then [] else [AsciiUpper(c)]
  {
    RemoveOne(c, IsDash);
  }

  lemma UpperKeepsNonDash(s: string)
    requires forall i :: 0 <= i < |s| ==> !IsDash(s[i])
    ensures forall i :: 0 <= i < |ToUpper(s)| ==> ToUpper(s)[i] != '-'
  {
  }

  function Min(a: int, b: int): int { if a <= b then a else b }

  /** `(pre + randomPart).substring(0, 10)`. */
  function GenerateUid(prefix: Option<string>, uuid: string): string {
    var all := UidPrefix(prefix) + RandomPart(uuid);
    all[..Min(IdLength, |all|)]
  }

  /**
   * An ID is at most 10 characters: the prefix first, then the random part,
   * cut at 10; a prefix of at most 10 characters is kept whole.
   */
  lemma GenerateUidShape(prefix: Option<string>, uuid: string)
    ensures var r, pre, rnd := GenerateUid(prefix, uuid), UidPrefix(prefix), RandomPart(uuid);
      |r| == Min(IdLength, |pre| + |rnd|) &&
      (forall i :: 0 <= i < |r| && i < |pre| ==> r[i] == pre[i]) &&
      (forall i :: |pre| <= i < |r| ==> r[i] == rnd[i - |pre|]) &&
      (|pre| <= IdLength ==> StartsWith(r, pre))
  {
    TakeOfConcat(UidPrefix(prefix), RandomPart(uuid), IdLength);
  }

  /** The first `n` characters of `a + b`: those of `a`, then those of `b`. */
  lemma TakeOfConcat(a: string, b: string, n: nat)
    ensures var r := (a + b)[..Min(n, |a| + |b|)];
      |r| == Min(n, |a| + |b|) &&
      (forall i :: 0 <= i < |r| && i < |a| ==> r[i] == a[i]) &&
      (forall i :: |a| <= i < |r| ==> r[i] == b[i - |a|]) &&
      (|a| <= n ==> StartsWith(r, a))
  {
    var r := (a + b)[..Min(n, |a| + |b|)];
    assert |a| <= n ==> r[..|a|] == a;
  }

  /** A version-4 UUID as `uuid` renders it: 32 hexadecimal digits in groups of 8-4-4-4-12. */
  predicate IsUuidText(u: string) {
    |u| == 36 &&
    forall i :: 0 <= i < 36 ==> (u[i] == '-' <==> i in {8, 13, 18, 23})
  }

  /** With the default prefix an ID is `GLMX` followed by the first six characters of the UUID, uppercased. */
  lemma DefaultUidShape(uuid: string)
    requires IsUuidText(uuid)
    ensures GenerateUid(None, uuid) == DefaultPrefix + ToUpper(uuid[..6])
  {
    var head := uuid[..8];
    assert uuid == head + uuid[8..];
    assert forall i :: 0 <= i < |head| ==> !IsDash(head[i]);
    RemoveAppend(head, uuid[8..], IsDash);
    RemoveNothing(head, IsDash);
    var stripped := Remove(uuid, IsDash);
    assert stripped[..8] == head;
    UpperPrefix(stripped, 6);
    assert stripped[..6] == uuid[..6];
  }

  lemma UpperPrefix(s: string, n: nat)
    requires n <= |s|
    ensures ToUpper(s)[..n] == ToUpper(s[..n])
  {
  }

  // ---------------------------------------------------------------------
  // generateNextUID
  // ---------------------------------------------------------------------

  /** `prefix?.length || 0`. */
  function PrefixLength(prefix: Option<string>): nat {
    if prefix.Some? then |prefix.value| else 0
  }

  /** `${prefix}`: an absent prefix interpolates as the text `undefined`. */
  function PrefixText(prefix: Option<string>): string {
    if prefix.Some? then prefix.value else "undefined"
  }

  /** `n.toString()` for the result of `parseInt(..) + 1`, where `NaN` stays `NaN`. */
  function NumberText(n: Option<int>): string {
    if n.Some? then IntToString(n.value) else "NaN"
  }

  function Successor(n: Option<int>): Option<int> {
    if n.Some? then Some(n.value + 1) else None
  }

  /** `latestId.slice(prefix?.length || 0)`; a start past the end gives the empty string. */
  function NumericPart(latestId: string, prefix: Option<string>): string {
    latestId[Min(PrefixLength(prefix), |latestId|)..]
  }

  /**
   * `generateNextUID(latestId, prefix)`: the number after the prefix plus
   * one, or the configured starting number when there is no (or an empty)
   * latest ID, left-padded with `0` to `10 - prefix length` and put after
   * `${prefix}`.
   */
  function GenerateNextUid(latestId: Option<string>, prefix: Option<string>, startingNumber: string): (r: string)
    ensures StartsWith(r, PrefixText(prefix))
    ensures |r| >= |PrefixText(prefix)| + IdLength - PrefixLength(prefix)
  {
    PrefixText(prefix) + PadStart(NumberText(NextNumber(latestId, prefix, startingNumber)), IdLength - PrefixLength(prefix), '0')
  }

  /** `parseInt(numericPart, 10) + 1`, or `parseInt(config.STARTING_NUMBER, 10)` without a latest ID. */
  function NextNumber(latestId: Option<string>, prefix: Option<string>, startingNumber: string): Option<int> {
    if latestId.Some? && latestId.value != "" then Successor(ParseInt(NumericPart(latestId.value, prefix)))
    else ParseInt(startingNumber)
  }

  /** The numeric suffix after a given prefix. */
  function Suffix(id: string, p: string): string
    requires StartsWith(id, p)
  {
    id[|p|..]
  }

  lemma SuffixAfter(p: string, rest: string)
    ensures StartsWith(p + rest, p) && Suffix(p + rest, p) == rest
  {
    assert (p + rest)[..|p|] == p;
    assert (p + rest)[|p|..] == rest;
  }

  /** Whatever number follows the prefix in the latest ID, the next ID holds its successor. */
  lemma NextUidOfParsed(p: string, digits: string, n: int, startingNumber: string)
    requires ParseInt(digits) == Some(n)
    ensures GenerateNextUid(Some(p + digits), Some(p), startingNumber)
         == p + PadStart(IntToString(n + 1), IdLength - |p|, '0')
  {
    NextNumberOfParsed(p, digits, n, startingNumber);
  }

  lemma NextNumberOfParsed(p: string, digits: string, n: int, startingNumber: string)
    requires ParseInt(digits) == Some(n)
    ensures NextNumber(Some(p + digits), Some(p), startingNumber) == Some(n + 1)
  {
    var id := p + digits;
    assert id != "" by {
      ParsedIsNonEmpty(digits);
    }
    calc {
      NextNumber(Some(id), Some(p), startingNumber);
      Successor(ParseInt(NumericPart(id, Some(p))));
      { NumericPartAfter(p, digits); }
      Successor(ParseInt(digits));
      { SuccessorOfSome(ParseInt(digits), n); }
      Some(n + 1);
    }
  }

  lemma SuccessorOfSome(x: Option<int>, n: int)
    requires x == Some(n)
    ensures Successor(x) == Some(n + 1)
  {
  }

  lemma ParsedIsNonEmpty(s: string)
    requires ParseInt(s).Some?
    ensures s != ""
  {
    EmptyDoesNotParse();
  }

  lemma EmptyDoesNotParse()
    ensures ParseInt("") == None
  {
    assert TrimStart("") == "";
    assert SignStripped("") == "";
  }

  lemma NumericPartAfter(p: string, digits: string)
    ensures NumericPart(p + digits, Some(p)) == digits
  {
    assert (p + digits)[|p|..] == digits;
  }

  /** A generated ID after prefix `p` holding `n` is followed by the one holding `n + 1`, padded to the same width. */
  lemma NextUidIsSuccessor(p: string, n: nat, startingNumber: string)
    ensures var latest := p + PadStart(NatToString(n), IdLength - |p|, '0');
      GenerateNextUid(Some(latest), Some(p), startingNumber)
        == p + PadStart(NatToString(n + 1), IdLength - |p|, '0')
  {
    var digits := PadStart(NatToString(n), IdLength - |p|, '0');
    PaddedNumeralParses(n, IdLength - |p|);
    NextUidOfParsed(p, digits, n, startingNumber);
    assert IntToString(n + 1) == NatToString(n + 1);
  }

  /** The suffix of the next ID reads back as the successor of the suffix of the latest one. */
  lemma NextUidValue(p: string, n: nat, startingNumber: string)
    ensures var next := GenerateNextUid(Some(p + PadStart(NatToString(n), IdLength - |p|, '0')), Some(p), startingNumber);
      StartsWith(next, p) && ParseInt(Suffix(next, p)) == Some(n + 1)
  {
    NextUidIsSuccessor(p, n, startingNumber);
    var pad := PadStart(NatToString(n + 1), IdLength - |p|, '0');
    SuffixAfter(p, pad);
    PaddedNumeralParses(n + 1, IdLength - |p|);
  }

  /** IDs chain: feeding each generated ID back in counts up by one each time. */
  lemma NextUidChains(p: string, n: nat, startingNumber: string)
    ensures var once := GenerateNextUid(Some(p + PadStart(NatToString(n), IdLength - |p|, '0')), Some(p), startingNumber);
      GenerateNextUid(Some(once), Some(p), startingNumber) == p + PadStart(NatToString(n + 2), IdLength - |p|, '0')
  {
    NextUidIsSuccessor(p, n, startingNumber);
    NextUidIsSuccessor(p, n + 1, startingNumber);
  }

  /** Padding never truncates: a number wider than the room left by the prefix makes the ID longer than 10. */
  lemma NextUidLength(latestId: Option<string>, p: string, startingNumber: string, text: string)
    requires text == NumberText(NextNumber(latestId, Some(p), startingNumber))
    ensures |GenerateNextUid(latestId, Some(p), startingNumber)|
         == if |text| <= IdLength - |p| then IdLength else |p| + |text|
  {
  }

  /** Without a latest ID the configured starting number is padded the same way. */
  lemma NoLatestIdStartsAtConfig(latestId: Option<string>, prefix: Option<string>, n: nat)
    requires latestId.None? || latestId == Some("")
    ensures GenerateNextUid(latestId, prefix, NatToString(n))
         == PrefixText(prefix) + PadStart(NatToString(n), IdLength - PrefixLength(prefix), '0')
  {
    StartingNumberParses(latestId, prefix, n);
  }

  lemma StartingNumberParses(latestId: Option<string>, prefix: Option<string>, n: nat)
    requires latestId.None? || latestId == Some("")
    ensures NumberText(NextNumber(latestId, prefix, NatToString(n))) == NatToString(n)
  {
    NatToStringRoundTrip(n);
    DigitsParse(NatToString(n));
  }

  /** A suffix that does not start with a number gives the text `NaN`, padded. */
  lemma UnparsableSuffixGivesNaN(latest: string, p: string, startingNumber: string)
    requires latest != "" && ParseInt(NumericPart(latest, Some(p))).None?
    ensures GenerateNextUid(Some(latest), Some(p), startingNumber) == p + PadStart("NaN", IdLength - |p|, '0')
  {
  }

  /** An unparsable starting number, such as unset configuration, gives a padded `NaN` too. */
  lemma UnparsableStartingNumberGivesNaN(latestId: Option<string>, prefix: Option<string>, startingNumber: string)
    requires latestId.None? || latestId == Some("")
    requires ParseInt(startingNumber).None?
    ensures GenerateNextUid(latestId, prefix, startingNumber)
         == PrefixText(prefix) + PadStart("NaN", IdLength - PrefixLength(prefix), '0')
  {
  }

  /** `parseInt(undefined, 10)` reads the text `undefined`, which has no digits. */
  lemma UndefinedParsesToNaN()
    ensures ParseInt("undefined").None?
  {
    var u := "undefined";
    assert u[0] == 'u';
    LetterStartIsNaN(u);
  }

  /** As written, an absent prefix puts the literal text `undefined` in front, with a 10-character number after it. */
  lemma AbsentPrefixIsLiteralUndefined(latestId: Option<string>, startingNumber: string)
    ensures StartsWith(GenerateNextUid(latestId, None, startingNumber), "undefined")
    ensures |GenerateNextUid(latestId, None, startingNumber)| >= 19
  {
  }

  /** As evidently intended: an absent or empty prefix falls back to `GLMX`, as in `generateUID`. */
  function GenerateNextUidWithDefault(latestId: Option<string>, prefix: Option<string>, startingNumber: string): (r: string)
    ensures StartsWith(r, UidPrefixOrDefault(prefix))
  {
    GenerateNextUid(latestId, Some(UidPrefixOrDefault(prefix)), startingNumber)
  }

  function UidPrefixOrDefault(prefix: Option<string>): string {
    if prefix.Some? && prefix.value != "" then prefix.value else DefaultPrefix
  }

  /** With the default prefix, IDs are `GLMX` and six digits, and each is the successor of the last. */
  lemma DefaultNextUidIsSuccessor(n: nat, startingNumber: string)
    requires n + 1 < 1000000
    ensures var latest := DefaultPrefix + PadStart(NatToString(n), 6, '0');
      var next := GenerateNextUidWithDefault(Some(latest), None, startingNumber);
      |next| == IdLength && StartsWith(next, DefaultPrefix) && ParseInt(Suffix(next, DefaultPrefix)) == Some(n + 1)
  {
    assert Pow10(6) == 1000000;
    NatToStringWidth(n + 1, 6);
    FittingNextUid(DefaultPrefix, n, startingNumber);
  }

  /** When the successor fits in the room the prefix leaves, the next ID is exactly 10 characters. */
  lemma FittingNextUid(p: string, n: nat, startingNumber: string)
    requires |p| <= IdLength && |NatToString(n + 1)| <= IdLength - |p|
    ensures var next := GenerateNextUid(Some(p + PadStart(NatToString(n), IdLength - |p|, '0')), Some(p), startingNumber);
      |next| == IdLength && StartsWith(next, p) && ParseInt(Suffix(next, p)) == Some(n + 1)
  {
    NextUidIsSuccessor(p, n, startingNumber);
    NextUidValue(p, n, startingNumber);
  }

  function Pow10(k: nat): nat { if k == 0 then 1 else 10 * Pow10(k - 1) }

  /** A number below 10^k has at most k digits. */
  lemma {:induction false} NatToStringWidth(n: nat, k: nat)
    requires k >= 1 && n < Pow10(k)
    ensures |NatToString(n)| <= k
  {
    if n >= 10 {
      assert k >= 2;
      assert n / 10 < Pow10(k - 1);
      NatToStringWidth(n / 10, k - 1);
    }
  }
}
