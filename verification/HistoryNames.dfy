/** File names in the history directory and the revisions they stand for. */
module HistoryNames {
  import opened Wrappers
  import opened ConfigModel

  const NAME_DIGITS: nat := 20

  function Pow10(n: nat): nat {
    if n == 0 then 1 else 10 * Pow10(n - 1)
  }

  function Digit(n: nat): char
    requires n < 10
  {
    '0' + n as char
  }

  /** The last `width` decimal digits, padded with zeros on the left. */
  function Padded(n: nat, width: nat): (s: string)
    ensures |s| == width
    ensures forall i | 0 <= i < |s| :: AsciiDigit(s[i])
  {
    if width == 0 then "" else Padded(n / 10, width - 1) + [Digit(n % 10)]
  }

  function Decimal(n: nat): (s: string)
    ensures |s| >= 1 && forall i | 0 <= i < |s| :: AsciiDigit(s[i])
  {
    if n < 10 then [Digit(n)] else Decimal(n / 10) + [Digit(n % 10)]
  }

  function HistoryName(revision: nat): string {
    Padded(revision, NAME_DIGITS) + ".json"
  }

  /** Where the text of an older schema is kept; not a numbered history entry. */
  function LegacyName(revision: nat, schema: nat): string {
    Padded(revision, NAME_DIGITS) + ".v" + Decimal(schema) + ".json"
  }

  /** The index of the last dot, or -1. */
  function LastDot(s: string): (i: int)
    ensures -1 <= i < |s|
  {
    if s == "" then -1
    else if s[|s| - 1] == '.' then |s| - 1
    else LastDot(s[..|s| - 1])
  }

  /** The name without its last extension; a leading dot starts no extension. */
  function Stem(name: string): string {
    var i := LastDot(name);
    if i <= 0 then name else name[..i]
  }

  function DigitValue(c: char): nat {
    if AsciiDigit(c) then (c - '0') as nat else 0
  }

  function Value(s: string): nat
    requires forall i | 0 <= i < |s| :: AsciiDigit(s[i])
  {
    if s == "" then 0 else 10 * Value(s[..|s| - 1]) + DigitValue(s[|s| - 1])
  }

  /** The whole stem must be a decimal number that fits in 64 bits. */
  function RevisionOf(name: string): Option<nat> {
    var stem := Stem(name);
    if stem != "" && (forall i | 0 <= i < |stem| :: AsciiDigit(stem[i])) && Value(stem) <= MAX_UINT64
    then Some(Value(stem))
    else None
  }

  lemma {:induction false} PaddedValue(n: nat, width: nat)
    requires n < Pow10(width)
    ensures Value(Padded(n, width)) == n
  {
    if width > 0 {
      PaddedValue(n / 10, width - 1);
      var s := Padded(n, width);
      assert s[..|s| - 1] == Padded(n / 10, width - 1);
    }
  }

  lemma {:induction false} LastDotOf(stem: string, extension: string)
    requires '.' !in extension
    ensures LastDot(stem + "." + extension) == |stem|
  {
    var s := stem + "." + extension;
    if extension != "" {
      var shorter := extension[..|extension| - 1];
      assert s[|s| - 1] == extension[|extension| - 1];
      assert s[..|s| - 1] == stem + "." + shorter;
      LastDotOf(stem, shorter);
    }
  }

  lemma JsonStem(stem: string)
    requires stem != ""
    ensures Stem(stem + ".json") == stem
  {
    assert stem + "." + "json" == stem + ".json";
    LastDotOf(stem, "json");
  }

  /** Reading a history name gives back the revision it was made from, so names are unique. */
  lemma HistoryNameRevision(revision: nat)
    requires revision <= MAX_UINT64
    ensures RevisionOf(HistoryName(revision)) == Some(revision)
  {
    assert Pow10(20) > MAX_UINT64 by {
      assert Pow10(5) == 100000;
      assert Pow10(10) == 10000000000;
      assert Pow10(15) == 1000000000000000;
    }
    JsonStem(Padded(revision, NAME_DIGITS));
    PaddedValue(revision, NAME_DIGITS);
  }

  /** A text kept from an older schema is never taken for a numbered history entry. */
  lemma LegacyNameIsNotNumbered(revision: nat, schema: nat)
    ensures RevisionOf(LegacyName(revision, schema)) == None
  {
    var stem := Padded(revision, NAME_DIGITS) + ".v" + Decimal(schema);
    JsonStem(stem);
    assert stem[NAME_DIGITS] == '.';
  }
}
