/** The `application/x-www-form-urlencoded` serialisation that the standard
    `URLSearchParams` object performs, and a builder class standing for it. */
module FormUrl {
  import opened Strings

  /** Characters the form encoding leaves unchanged. */
  predicate IsSafeChar(c: char) {
    ('a' <= c <= 'z') || ('A' <= c <= 'Z') || IsDigit(c) || c == '*' || c == '-' || c == '.' || c == '_'
  }

  predicate IsSafeString(s: string) {
    forall i :: 0 <= i < |s| ==> IsSafeChar(s[i])
  }

  /** Characters an encoded string can contain. */
  predicate IsEncodedChar(c: char) {
    IsSafeChar(c) || c == '+' || c == '%'
  }

  function HexDigit(d: nat): (c: char)
    requires d < 16
    ensures IsSafeChar(c)
  {
    "0123456789ABCDEF"[d]
  }

  /** The UTF-8 bytes of a character. */
  function Utf8Bytes(c: char): (bytes: seq<nat>)
    ensures 1 <= |bytes| <= 4
    ensures forall i :: 0 <= i < |bytes| ==> bytes[i] < 256
  {
    var cp := c as int;
    if cp < 0x80 then [cp]
    else if cp < 0x800 then [0xC0 + cp / 0x40, 0x80 + cp % 0x40]
    else if cp < 0x1_0000 then [0xE0 + cp / 0x1000, 0x80 + (cp / 0x40) % 0x40, 0x80 + cp % 0x40]
    else [0xF0 + cp / 0x4_0000, 0x80 + (cp / 0x1000) % 0x40, 0x80 + (cp / 0x40) % 0x40, 0x80 + cp % 0x40]
  }

  /** `%XX` for each byte, with upper-case hexadecimal digits. */
  function PercentEncode(bytes: seq<nat>): (r: string)
    requires forall i :: 0 <= i < |bytes| ==> bytes[i] < 256
    ensures |r| == 3 * |bytes|
    ensures forall i :: 0 <= i < |r| ==> IsEncodedChar(r[i])
  {
    if bytes == [] then ""
    else ['%', HexDigit(bytes[0] / 16), HexDigit(bytes[0] % 16)] + PercentEncode(bytes[1..])
  }

  function EncodeChar(c: char): (r: string)
    ensures |r| >= 1
    ensures forall i :: 0 <= i < |r| ==> IsEncodedChar(r[i])
  {
    if IsSafeChar(c) then [c]
    else if c == ' ' then "+"
    else PercentEncode(Utf8Bytes(c))
  }

  /** The form encoding of a name or a value: safe characters stay, a space
      becomes '+', every other character becomes its percent-encoded UTF-8 bytes. */
  function FormEncode(s: string): (r: string)
    ensures |r| >= |s|
    ensures forall i :: 0 <= i < |r| ==> IsEncodedChar(r[i])
  {
    if s == [] then "" else EncodeChar(s[0]) + FormEncode(s[1..])
  }

  /** A string of safe characters is its own encoding. */
  lemma {:induction false} FormEncodeSafe(s: string)
    requires IsSafeString(s)
    ensures FormEncode(s) == s
  {
    if s != [] {
      FormEncodeSafe(s[1..]);
      assert [s[0]] + s[1..] == s;
    }
  }

  /** An encoding never holds the separators of the serialisation. */
  lemma EncodedHasNoSeparator(s: string)
    ensures '&' !in FormEncode(s) && '=' !in FormEncode(s)
  {
    var r := FormEncode(s);
    assert forall i :: 0 <= i < |r| ==> IsEncodedChar(r[i]);
  }

  function EncodePair(entry: (string, string)): string {
    FormEncode(entry.0) + "=" + FormEncode(entry.1)
  }

  function EncodePairs(entries: seq<(string, string)>): (r: seq<string>)
    ensures |r| == |entries|
    ensures forall i :: 0 <= i < |r| ==> r[i] == EncodePair(entries[i])
  {
    if entries == [] then [] else [EncodePair(entries[0])] + EncodePairs(entries[1..])
  }

  /** `URLSearchParams.prototype.toString`: `name=value` pairs joined by '&'. */
  function Serialize(entries: seq<(string, string)>): string {
    Join(EncodePairs(entries), "&")
  }

  lemma SerializeEmpty(entries: seq<(string, string)>)
    ensures Serialize(entries) == "" <==> entries == []
  {
    if entries != [] {
      var pairs := EncodePairs(entries);
      assert '=' in pairs[0];
      JoinNonEmpty(pairs, "&");
    }
  }

  /** The builder the source appends to step by step. */
  class SearchParams {
    var entries: seq<(string, string)>

    constructor ()
      ensures entries == []
    {
      entries := [];
    }

    method Append(name: string, value: string)
      modifies this
      ensures entries == old(entries) + [(name, value)]
    {
      entries := entries + [(name, value)];
    }

    function ToString(): string
      reads this
    {
      Serialize(entries)
    }
  }

  /** One `name=value` piece read back: split at the first '='. */
  function SplitPair(piece: string): (string, string) {
    if piece == [] then ("", "")
    else if piece[0] == '=' then ("", piece[1..])
    else
      var (name, value) := SplitPair(piece[1..]);
      ([piece[0]] + name, value)
  }

  lemma {:induction false} SplitPairAtSeparator(name: string, value: string)
    requires '=' !in name
    ensures SplitPair(name + "=" + value) == (name, value)
  {
    if name == [] {
      assert name + "=" + value == "=" + value;
    } else {
      assert (name + "=" + value)[1..] == name[1..] + "=" + value;
      SplitPairAtSeparator(name[1..], value);
      assert [name[0]] + name[1..] == name;
    }
  }

  function SplitPairs(pieces: seq<string>): (r: seq<(string, string)>)
    ensures |r| == |pieces|
  {
    if pieces == [] then [] else [SplitPair(pieces[0])] + SplitPairs(pieces[1..])
  }

  /** Reading a serialised query back into its (still encoded) pairs. */
  function ParseQuery(query: string): seq<(string, string)> {
    if query == "" then [] else SplitPairs(Split(query, '&'))
  }

  function EncodedEntries(entries: seq<(string, string)>): (r: seq<(string, string)>)
    ensures |r| == |entries|
    ensures forall i :: 0 <= i < |r| ==> r[i] == (FormEncode(entries[i].0), FormEncode(entries[i].1))
  {
    if entries == [] then [] else [(FormEncode(entries[0].0), FormEncode(entries[0].1))] + EncodedEntries(entries[1..])
  }

  lemma {:induction false} SplitPairsOfEncoded(entries: seq<(string, string)>)
    ensures SplitPairs(EncodePairs(entries)) == EncodedEntries(entries)
  {
    if entries != [] {
      EncodedHasNoSeparator(entries[0].0);
      SplitPairAtSeparator(FormEncode(entries[0].0), FormEncode(entries[0].1));
      SplitPairsOfEncoded(entries[1..]);
      assert EncodePairs(entries)[1..] == EncodePairs(entries[1..]);
    }
  }

  /** Serialisation round-trip: every pair comes back, in order, encoded. */
  lemma ParseSerialize(entries: seq<(string, string)>)
    ensures ParseQuery(Serialize(entries)) == EncodedEntries(entries)
  {
    SerializeEmpty(entries);
    if entries != [] {
      var pairs := EncodePairs(entries);
      forall i | 0 <= i < |pairs|
        ensures '&' !in pairs[i]
      {
        EncodedHasNoSeparator(entries[i].0);
        EncodedHasNoSeparator(entries[i].1);
      }
      SplitJoin(pairs, '&');
      SplitPairsOfEncoded(entries);
    }
  }

  /** For names and values of safe characters the round-trip is exact. */
  lemma ParseSerializeSafe(entries: seq<(string, string)>)
    requires forall i :: 0 <= i < |entries| ==> IsSafeString(entries[i].0) && IsSafeString(entries[i].1)
    ensures ParseQuery(Serialize(entries)) == entries
  {
    ParseSerialize(entries);
    forall i | 0 <= i < |entries|
      ensures EncodedEntries(entries)[i] == entries[i]
    {
      FormEncodeSafe(entries[i].0);
      FormEncodeSafe(entries[i].1);
    }
  }
}
