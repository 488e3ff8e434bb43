/** Account records as text (server/accounts.cpp): scheme, iterations, salt and hash between
    dollar signs. */
module Records {

  const SCHEME := "pbkdf2-sha256"
  const HASH_DIGITS: nat := 64

  function DollarFrom(s: string, i: nat): (j: nat)
    requires i <= |s|
    ensures i <= j <= |s| && (j < |s| ==> s[j] == '$')
    ensures forall k :: i <= k < j ==> s[k] != '$'
    decreases |s| - i
  {
    if i == |s| || s[i] == '$' then i else DollarFrom(s, i + 1)
  }

  /** What getline finds between dollar signs; one at the very end starts no new field. */
  function Fields(s: string): seq<string>
    decreases |s|
  {
    if s == "" then []
    else
      var i := DollarFrom(s, 0);
      [s[..i]] + if i == |s| then [] else Fields(s[i + 1..])
  }

  predicate IsLowerHex(c: char) {
    '0' <= c <= '9' || 'a' <= c <= 'f'
  }

  predicate IsHexText(s: string) {
    |s| % 2 == 0 && forall i :: 0 <= i < |s| ==> IsLowerHex(s[i])
  }

  predicate IsCount(s: string) {
    && 0 < |s| <= 9 && (forall i :: 0 <= i < |s| ==> '0' <= s[i] <= '9')
    && exists i :: 0 <= i < |s| && s[i] != '0'
  }

  predicate IsValidRecord(record: string) {
    var fields := Fields(record);
    && |fields| == 4 && fields[0] == SCHEME && IsCount(fields[1])
    && IsHexText(fields[2]) && fields[2] != "" && IsHexText(fields[3]) && |fields[3]| == HASH_DIGITS
  }

  /** make_record, given the salt and the hash as hexadecimal digits. */
  function MadeRecord(salt: string, hash: string): string {
    SCHEME + "$" + ("100000" + "$" + (salt + "$" + hash))
  }

  lemma FieldsStep(field: string, rest: string)
    requires '$' !in field
    ensures Fields(field + "$" + rest) == [field] + Fields(rest)
  {
    var s := field + "$" + rest;
    assert s[|field|] == '$';
    forall k | 0 <= k < |field| ensures s[k] != '$' { assert s[k] == field[k] && field[k] in field; }
    assert DollarFrom(s, 0) == |field|;
    assert s[..|field|] == field && s[|field| + 1..] == rest;
  }

  lemma LastField(field: string)
    requires '$' !in field && field != ""
    ensures Fields(field) == [field]
  {
    forall k | 0 <= k < |field| ensures field[k] != '$' { assert field[k] in field; }
    assert DollarFrom(field, 0) == |field|;
    assert field[..|field|] == field;
  }

  lemma HexHasNoDollar(s: string)
    requires IsHexText(s)
    ensures '$' !in s
  {
  }

  /** Every record the server makes is one its backups take. */
  lemma MadeRecordIsValid(salt: string, hash: string)
    requires IsHexText(salt) && salt != "" && IsHexText(hash) && |hash| == HASH_DIGITS
    ensures IsValidRecord(MadeRecord(salt, hash))
  {
    HexHasNoDollar(salt);
    HexHasNoDollar(hash);
    FieldsStep(SCHEME, "100000" + "$" + (salt + "$" + hash));
    FieldsStep("100000", salt + "$" + hash);
    FieldsStep(salt, hash);
    LastField(hash);
    assert "100000"[0] != '0';
  }

  /* ------------------------------------------------------- what a valid record is */

  /** The text is these four parts with a dollar sign after each of the first three, and
      perhaps after the last. */
  predicate Spells(record: string, count: string, salt: string, hash: string) {
    record == Spelled(count, salt, hash) || record == Spelled(count, salt, hash + "$")
  }

  function Spelled(count: string, salt: string, last: string): string {
    "pbkdf2-sha256" + "$" + (count + "$" + (salt + "$" + last))
  }

  predicate PartsValid(count: string, salt: string, hash: string) {
    && 1 <= |count| <= 9 && (forall c :: c in count ==> '0' <= c <= '9') && (exists c :: c in count && c != '0')
    && 2 <= |salt| && |salt| % 2 == 0 && (forall c :: c in salt ==> '0' <= c <= '9' || 'a' <= c <= 'f')
    && |hash| == 64 && (forall c :: c in hash ==> '0' <= c <= '9' || 'a' <= c <= 'f')
  }

  lemma PartsMean(count: string, salt: string, hash: string)
    ensures PartsValid(count, salt, hash) <==>
      IsCount(count) && IsHexText(salt) && salt != "" && IsHexText(hash) && |hash| == HASH_DIGITS
  {
    CountMeans(count);
    HexMeans(salt);
    HexMeans(hash);
  }

  lemma CountMeans(s: string)
    ensures IsCount(s) <==> 1 <= |s| <= 9 && (forall c :: c in s ==> '0' <= c <= '9') && exists c :: c in s && c != '0'
  {
    if c :| c in s && c != '0' {
      var i :| 0 <= i < |s| && s[i] == c;
      assert s[i] != '0';
    }
    if i :| 0 <= i < |s| && s[i] != '0' { assert s[i] in s; }
    assert forall i :: 0 <= i < |s| ==> s[i] in s;
  }

  lemma HexMeans(s: string)
    ensures IsHexText(s) <==> |s| % 2 == 0 && forall c :: c in s ==> '0' <= c <= '9' || 'a' <= c <= 'f'
  {
    assert forall i :: 0 <= i < |s| ==> s[i] in s;
  }

  lemma CutAtDollar(s: string, i: nat)
    requires i < |s| && s[i] == '$'
    ensures s == s[..i] + "$" + s[i + 1..]
  {
  }

  lemma Headed(first: string, rest: seq<string>)
    ensures ([first] + rest)[0] == first && ([first] + rest)[1..] == rest
  {
  }

  lemma FieldsCut(s: string) returns (rest: string)
    requires |Fields(s)| > 1
    ensures s == Fields(s)[0] + "$" + rest && Fields(s)[1..] == Fields(rest)
  {
    var i := DollarFrom(s, 0);
    rest := s[i + 1..];
    CutAtDollar(s, i);
    Headed(s[..i], Fields(rest));
  }

  lemma OneField(s: string)
    requires |Fields(s)| == 1
    ensures s == Fields(s)[0] || s == Fields(s)[0] + "$"
  {
    var i := DollarFrom(s, 0);
    if i < |s| { assert Fields(s[i + 1..]) == [] && s == s[..i] + "$"; }
  }

  lemma TrailingDollar(field: string)
    requires '$' !in field && field != ""
    ensures Fields(field + "$") == [field]
  {
    FieldsStep(field, "");
    assert field + "$" + "" == field + "$";
  }

  lemma FourFields(record: string) returns (count: string, salt: string, hash: string)
    requires |Fields(record)| == 4 && Fields(record)[0] == SCHEME
    ensures Fields(record) == [SCHEME, count, salt, hash] && Spells(record, count, salt, hash)
  {
    count, salt, hash := Fields(record)[1], Fields(record)[2], Fields(record)[3];
    var r1 := FieldsCut(record);
    assert Fields(record)[1..] == [count, salt, hash];
    var r2 := FieldsCut(r1);
    assert Fields(r1)[1..] == [salt, hash];
    var r3 := FieldsCut(r2);
    assert Fields(r2)[1..] == [hash];
    OneField(r3);
    Together(record, r1, r2, r3, count, salt);
  }

  lemma Together(record: string, r1: string, r2: string, r3: string, count: string, salt: string)
    requires record == SCHEME + "$" + r1 && r1 == count + "$" + r2 && r2 == salt + "$" + r3
    ensures record == Spelled(count, salt, r3)
  {
  }

  lemma SpelledFields(count: string, salt: string, last: string, hash: string)
    requires '$' !in count && '$' !in salt && Fields(last) == [hash]
    ensures Fields(Spelled(count, salt, last)) == [SCHEME, count, salt, hash]
  {
    FieldsStep(SCHEME, count + "$" + (salt + "$" + last));
    FieldsStep(count, salt + "$" + last);
    FieldsStep(salt, last);
  }

  /** The records a backup takes are exactly those of this form. */
  lemma RecordIsValidIff(record: string)
    ensures IsValidRecord(record) <==>
      exists count, salt, hash :: Spells(record, count, salt, hash) && PartsValid(count, salt, hash)
  {
    if IsValidRecord(record) {
      var count, salt, hash := FourFields(record);
      PartsMean(count, salt, hash);
      assert Spells(record, count, salt, hash) && PartsValid(count, salt, hash);
    }
    if count, salt, hash :| Spells(record, count, salt, hash) && PartsValid(count, salt, hash) {
      PartsMean(count, salt, hash);
      LastField(hash);
      TrailingDollar(hash);
      SpelledFields(count, salt, if record == Spelled(count, salt, hash) then hash else hash + "$", hash);
    }
  }
}
