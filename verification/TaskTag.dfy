/** Task version tags: the `If-Match` values that name a task generation and its revision. */
module TaskTag {
  import opened Wrappers
  import opened PythonText
  import Decimal
  import Utf8
  import Base64Url

  datatype TagError = VersionRequired | WeakTag | InvalidTag

  /** `_task_etag_parts`: the quoted, unpadded base64url form of "generation:revision". */
  function Print(generationId: string, revision: nat): string {
    "\"" + Base64Url.Unpadded(Base64Url.Encode(Utf8.Encode(generationId + ":" + Decimal.Print(revision)))) + "\""
  }

  function LastColon(s: string): (r: Option<nat>)
    ensures r.Some? ==> r.value < |s| && s[r.value] == ':' && forall k | r.value < k < |s| :: s[k] != ':'
    ensures r.None? ==> ':' !in s
  {
    if s == [] then None
    else if s[|s| - 1] == ':' then Some(|s| - 1)
    else LastColon(s[..|s| - 1])
  }

  /** The part of the token that is encoded: without surrounding spaces and quotes. */
  function Unquoted(token: string): string {
    if |token| >= 2 && token[0] == '"' && token[|token| - 1] == '"' then token[1..|token| - 1] else token
  }

  /** The generation and revision that a decoded token names. */
  function ParseDecoded(decoded: string): Result<(string, nat), TagError> {
    match LastColon(decoded)
    case None => Failure(InvalidTag)
    case Some(k) =>
      match Decimal.ParseInt(decoded[k + 1..])
      case None => Failure(InvalidTag)
      case Some(revision) =>
        if k == 0 || revision < 0 then Failure(InvalidTag) else Success((decoded[..k], revision))
  }

  /** `_parse_task_etag`; an absent header is None. */
  function Parse(value: Option<string>): (r: Result<(string, nat), TagError>)
    ensures r == Failure(VersionRequired) <==> value.None? || value.value == ""
    ensures r.Success? ==> r.value.0 != ""
  {
    if value.None? || value.value == "" then Failure(VersionRequired) else
    var token := Strip(value.value);
    if "W/" <= token then Failure(WeakTag) else
    var t := Unquoted(token);
    match Base64Url.Decode(t + Base64Url.Padding(|t|))
    case None => Failure(InvalidTag)
    case Some(bytes) =>
      match Utf8.Decode(bytes)
      case None => Failure(InvalidTag)
      case Some(decoded) => ParseDecoded(decoded)
  }

  lemma {:induction false} LastColonIs(s: string, k: nat)
    requires k < |s| && s[k] == ':' && forall j | k < j < |s| :: s[j] != ':'
    ensures LastColon(s) == Some(k)
  {
    if k < |s| - 1 {
      LastColonIs(s[..|s| - 1], k);
    }
  }

  /** The last colon separates: colons inside the generation id do no harm. */
  lemma ParseDecodedOfParts(generationId: string, revision: nat)
    ensures ParseDecoded(generationId + ":" + Decimal.Print(revision)) ==
            if generationId == "" then Failure(InvalidTag) else Success((generationId, revision))
  {
    hide Decimal.ParseInt, Decimal.Print, LastColon;
    var d := Decimal.Print(revision);
    var s := generationId + ":" + d;
    assert forall j | |generationId| < j < |s| :: s[j] == d[j - |generationId| - 1];
    assert forall j | 0 <= j < |d| :: Decimal.IsDigit(d[j]);
    LastColonIs(s, |generationId|);
    assert s[|generationId| + 1..] == d && s[..|generationId|] == generationId;
    Decimal.ParseIntOfPrint(revision);
  }

  /** Parsing a printed tag gives back what was printed; only an empty generation id is refused. */
  lemma ParseOfPrint(generationId: string, revision: nat)
    ensures Parse(Some(Print(generationId, revision))) ==
            if generationId == "" then Failure(InvalidTag) else Success((generationId, revision))
  {
    hide Base64Url.Decode, Base64Url.Encode, Base64Url.Unpadded, Utf8.Decode, Utf8.Encode, ParseDecoded, Strip, Decimal.Print;
    var raw := generationId + ":" + Decimal.Print(revision);
    var token := Base64Url.Unpadded(Base64Url.Encode(Utf8.Encode(raw)));
    var tag := Print(generationId, revision);
    assert tag[0] == '"' && tag[|tag| - 1] == '"' && !IsSpace('"');
    StripKeeps(tag);
    assert Unquoted(tag) == token;
    Base64Url.DecodeOfUnpadded(Utf8.Encode(raw));
    Utf8.DecodeOfEncode(raw);
    ParseDecodedOfParts(generationId, revision);
    assert tag[0] != 'W';
  }

  /** Distinct task versions have distinct tags. */
  lemma TagsAreDistinct(g1: string, r1: nat, g2: string, r2: nat)
    requires g1 != "" && g2 != "" && Print(g1, r1) == Print(g2, r2)
    ensures g1 == g2 && r1 == r2
  {
    ParseOfPrint(g1, r1);
    ParseOfPrint(g2, r2);
  }

  /** Spaces around a tag change nothing. */
  lemma SpacesDoNotMatter(before: string, generationId: string, revision: nat, after: string)
    requires IsBlank(before) && IsBlank(after)
    ensures Parse(Some(before + Print(generationId, revision) + after)) == Parse(Some(Print(generationId, revision)))
  {
    var tag := Print(generationId, revision);
    assert tag[0] == '"' && tag[|tag| - 1] == '"' && !IsSpace('"');
    StripSurrounded(before, tag, after);
    StripKeeps(tag);
    hide Print, Strip, Unquoted, Base64Url.Decode, Utf8.Decode, ParseDecoded;
  }

  /** The tag of revision 0 of generation "a": the quoted base64url of "a:0". */
  lemma TagExample()
    ensures Print("a", 0) == "\"" + ['Y', 'T', 'o', 'w'] + "\""
  {
    hide Decimal.Print, Utf8.Encode, Base64Url.Encode, Base64Url.Unpadded, Base64Url.GroupOf;
    EncodedAscii();
    assert "a" + ":" + "0" == ['a', ':', '0'];
    Base64Url.LastGroups([97], [97, 58], [97, 58, 48]);
    GroupOfExample();
    NothingToStrip();
  }

  lemma GroupOfExample()
    ensures Base64Url.GroupOf([97, 58, 48]) == ['Y', 'T', 'o', 'w']
  {
    hide Base64Url.Symbol;
    SomeSymbols();
  }

  lemma SomeSymbols()
    ensures Base64Url.Symbol(24) == 'Y' && Base64Url.Symbol(19) == 'T' && Base64Url.Symbol(40) == 'o' && Base64Url.Symbol(48) == 'w'
  {}

  lemma NothingToStrip()
    ensures Base64Url.Unpadded(['Y', 'T', 'o', 'w']) == ['Y', 'T', 'o', 'w'] && Decimal.Print(0) == "0"
  {}

  lemma EncodedAscii()
    ensures Utf8.Encode(['a', ':', '0']) == [97, 58, 48]
  {
    assert ['a', ':', '0'][1..] == [':', '0'] && [':', '0'][1..] == ['0'] && ['0'][1..] == [];
  }
}
