/** How long an inventory is as the archive's manifest: compact JSON with sorted keys, in
    UTF-8, as scripts/cleanup_prod2_selected.py writes it. */
module ManifestText {
  import opened Common
  import opened DateText
  import opened CleanupInventory

  /** The bytes of one character inside a JSON string. */
  function CharLength(c: char): nat {
    var code := c as int;
    if c == '"' || c == '\\' || c in {'\n', '\r', '\t', '\U{0008}', '\U{000C}'} then 2
    else if code < 0x20 then 6
    else if code < 0x80 then 1
    else if code < 0x800 then 2
    else if code < 0x1_0000 then 3
    else 4
  }

  function CharsLength(s: string): nat {
    if s == "" then 0 else CharsLength(s[..|s| - 1]) + CharLength(s[|s| - 1])
  }

  /** A JSON string with its quotes. */
  function TextLength(s: string): nat { CharsLength(s) + 2 }

  function BoolLength(b: bool): nat { if b then 4 else 5 }

  /** The keys binary, bytes, case_path if there is one, delete, logical_path and sha256, the
      last with sixty-four digits. */
  function EntryLength(e: Entry): nat {
    10 + BoolLength(e.binary) + 9 + |Dec(e.bytes)|
    + (if e.owner.Some? then 13 + TextLength(e.owner.value) else 0)
    + 10 + BoolLength(e.doomed) + 16 + TextLength(e.path) + 10 + 66 + 1
  }

  /** The entries with the commas before all but the first. */
  function EntriesLength(files: seq<Entry>): nat {
    if files == [] then 0
    else EntriesLength(files[..|files| - 1]) + (if |files| == 1 then 0 else 1) + EntryLength(files[|files| - 1])
  }

  function ManifestLength(v: Inventory): nat { |v.header| + 2 + EntriesLength(v.files) }

  // ----- The text itself -----------------------------------------------------------------------

  /** One character in UTF-8. */
  function Utf8(c: char): seq<int> {
    var code := c as int;
    if code <= 0x7F then [code]
    else if code <= 0x7FF then [0xC0 + code / 0x40, 0x80 + code % 0x40]
    else if code <= 0xFFFF then [0xE0 + code / 0x1000, 0x80 + code / 0x40 % 0x40, 0x80 + code % 0x40]
    else [0xF0 + code / 0x4_0000, 0x80 + code / 0x1000 % 0x40, 0x80 + code / 0x40 % 0x40, 0x80 + code % 0x40]
  }

  function Bytes(s: string): seq<int> {
    if s == "" then [] else Bytes(s[..|s| - 1]) + Utf8(s[|s| - 1])
  }

  /** The code point of one encoded character, by its number of bytes. */
  function CodeOf(b: seq<int>): int
    requires 1 <= |b| <= 4
  {
    if |b| == 1 then b[0]
    else if |b| == 2 then (b[0] - 192) * 64 + (b[1] - 128)
    else if |b| == 3 then (b[0] - 224) * 4096 + (b[1] - 128) * 64 + (b[2] - 128)
    else (b[0] - 240) * 262144 + (b[1] - 128) * 4096 + (b[2] - 128) * 64 + (b[3] - 128)
  }

  lemma Sixes(n: nat)
    ensures n == n / 64 * 64 + n % 64
    ensures n / 64 == n / 4096 * 64 + n / 64 % 64
    ensures n / 4096 == n / 262144 * 64 + n / 4096 % 64
  {
    assert n / 64 / 64 == n / 4096;
    assert n / 4096 / 64 == n / 262144;
  }

  lemma Utf8Decodes(c: char)
    ensures 1 <= |Utf8(c)| <= 4 && CodeOf(Utf8(c)) == c as int
  {
    var code, b := c as int, Utf8(c);
    Sixes(code);
    if |b| == 2 { assert b[0] == 192 + code / 64 && b[1] == 128 + code % 64; }
    if |b| == 3 { assert b[0] == 224 + code / 4096 && b[1] == 128 + code / 64 % 64 && b[2] == 128 + code % 64; }
    if |b| == 4 { assert b[0] == 240 + code / 262144 && b[1] == 128 + code / 4096 % 64 && b[2] == 128 + code / 64 % 64 && b[3] == 128 + code % 64; }
  }

  lemma Utf8Bytes(c: char)
    ensures |Utf8(c)| == 1 ==> 0 <= Utf8(c)[0] < 128
    ensures |Utf8(c)| > 1 ==> (if |Utf8(c)| == 2 then 192 else if |Utf8(c)| == 3 then 224 else 240) <= Utf8(c)[0] < 248
    ensures forall i :: 1 <= i < |Utf8(c)| ==> 128 <= Utf8(c)[i] < 192
  {
  }

  function HexDigit(n: nat): char
    requires n < 16
  {
    "0123456789abcdef"[n]
  }

  /** One character inside a JSON string: quotes, backslashes and control characters are
      escaped, and no other. */
  function Escaped(c: char): string {
    if c == '"' then "\\\""
    else if c == '\\' then "\\\\"
    else if c == '\n' then "\\n"
    else if c == '\r' then "\\r"
    else if c == '\t' then "\\t"
    else if c == '\U{0008}' then "\\b"
    else if c == '\U{000C}' then "\\f"
    else if c as int < 0x20 then "\\u00" + [HexDigit(c as int / 16), HexDigit(c as int % 16)]
    else [c]
  }

  function EscapedAll(s: string): string {
    if s == "" then "" else EscapedAll(s[..|s| - 1]) + Escaped(s[|s| - 1])
  }

  function Quoted(s: string): string { "\"" + EscapedAll(s) + "\"" }

  function BoolText(b: bool): string { if b then "true" else "false" }

  /** An entry with sorted keys and no spaces. */
  function EntryText(e: Entry, digest: string): string {
    (("{\"binary\":" + BoolText(e.binary)) + (",\"bytes\":" + Dec(e.bytes)))
    + ((if e.owner.Some? then ",\"case_path\":" + Quoted(e.owner.value) else "")
       + ((",\"delete\":" + BoolText(e.doomed))
          + ((",\"logical_path\":" + Quoted(e.path)) + (",\"sha256\":\"" + (digest + "\"}")))))
  }

  function EntriesText(files: seq<Entry>, digests: seq<string>): string
    requires |files| == |digests|
  {
    if files == [] then ""
    else
      var n := |files| - 1;
      EntriesText(files[..n], digests[..n]) + ((if n == 0 then "" else ",") + EntryText(files[n], digests[n]))
  }

  predicate Ascii(s: string) { forall i :: 0 <= i < |s| ==> 0x20 <= s[i] as int < 0x80 }

  lemma {:induction false} BytesJoin(s: string, t: string)
    ensures Bytes(s + t) == Bytes(s) + Bytes(t)
  {
    hide Utf8;
    if t == "" {
      assert s + t == s;
    } else {
      var n := |t| - 1;
      assert (s + t)[..|s| + n] == s + t[..n] && (s + t)[|s| + n] == t[n];
      BytesJoin(s, t[..n]);
    }
  }

  lemma {:induction false} AsciiBytes(s: string)
    requires Ascii(s)
    ensures |Bytes(s)| == |s|
  {
    if s != "" {
      AsciiBytes(s[..|s| - 1]);
    }
  }

  lemma EscapedBytes(c: char)
    ensures |Bytes(Escaped(c))| == CharLength(c)
  {
    var s := Escaped(c);
    if Ascii(s) { AsciiBytes(s); } else { assert s == [c] && s[..0] == ""; }
  }

  lemma {:induction false} CharsText(s: string)
    ensures |Bytes(EscapedAll(s))| == CharsLength(s)
  {
    hide Utf8, Escaped, CharLength;
    if s != "" {
      var n := |s| - 1;
      CharsText(s[..n]);
      EscapedBytes(s[n]);
      hide Bytes;
      BytesJoin(EscapedAll(s[..n]), Escaped(s[n]));
    }
  }

  lemma QuotedText(s: string)
    ensures |Bytes(Quoted(s))| == TextLength(s)
  {
    CharsText(s);
    AsciiBytes("\"");
    hide Bytes, EscapedAll, CharsLength;
    BytesJoin("\"" + EscapedAll(s), "\"");
    BytesJoin("\"", EscapedAll(s));
  }

  lemma {:induction false} DecAscii(n: nat)
    ensures Ascii(Dec(n))
  {
    if n >= 10 { DecAscii(n / 10); }
  }

  /** A literal key and what follows it. */
  lemma KeyBytes(key: string, value: string)
    requires Ascii(key)
    ensures |Bytes(key + value)| == |key| + |Bytes(value)|
  {
    AsciiBytes(key);
    hide Bytes;
    BytesJoin(key, value);
  }

  lemma NumberBytes(key: string, n: nat)
    requires Ascii(key)
    ensures |Bytes(key + Dec(n))| == |key| + |Dec(n)|
  {
    DecAscii(n);
    AsciiBytes(Dec(n));
    hide Bytes, Dec, Ascii;
    KeyBytes(key, Dec(n));
  }

  lemma BoolBytes(key: string, b: bool)
    requires Ascii(key)
    ensures |Bytes(key + BoolText(b))| == |key| + BoolLength(b)
  {
    AsciiBytes(BoolText(b));
    hide Bytes, Ascii;
    KeyBytes(key, BoolText(b));
  }

  lemma QuotedBytes(key: string, s: string)
    requires Ascii(key)
    ensures |Bytes(key + Quoted(s))| == |key| + TextLength(s)
  {
    QuotedText(s);
    hide Bytes, Ascii, Quoted, TextLength;
    KeyBytes(key, Quoted(s));
  }

  lemma DigestBytes(key: string, digest: string)
    requires Ascii(key) && Ascii(digest)
    ensures |Bytes(key + (digest + "\"}"))| == |key| + |digest| + 2
  {
    AsciiBytes(digest + "\"}");
    hide Bytes, Ascii;
    KeyBytes(key, digest + "\"}");
  }

  lemma KeysAscii()
    ensures Ascii("{\"binary\":") && Ascii(",\"bytes\":") && Ascii(",\"case_path\":")
    ensures Ascii(",\"delete\":") && Ascii(",\"logical_path\":") && Ascii(",\"sha256\":\"") && Ascii("")
  {
  }

  lemma EntryBytes(e: Entry, digest: string)
    requires |digest| == 64 && Ascii(digest)
    ensures |Bytes(EntryText(e, digest))| == EntryLength(e)
  {
    var binary, size := "{\"binary\":" + BoolText(e.binary), ",\"bytes\":" + Dec(e.bytes);
    var owner := if e.owner.Some? then ",\"case_path\":" + Quoted(e.owner.value) else "";
    var doomed, path, sha := ",\"delete\":" + BoolText(e.doomed), ",\"logical_path\":" + Quoted(e.path), ",\"sha256\":\"" + (digest + "\"}");
    KeysAscii();
    AsciiBytes("");
    hide Bytes, Quoted, Dec, BoolText, BoolLength, TextLength, Ascii;
    BoolBytes("{\"binary\":", e.binary);
    NumberBytes(",\"bytes\":", e.bytes);
    if e.owner.Some? { QuotedBytes(",\"case_path\":", e.owner.value); }
    BoolBytes(",\"delete\":", e.doomed);
    QuotedBytes(",\"logical_path\":", e.path);
    DigestBytes(",\"sha256\":\"", digest);
    BytesJoin(binary, size);
    BytesJoin(path, sha);
    BytesJoin(doomed, path + sha);
    BytesJoin(owner, doomed + (path + sha));
    BytesJoin(binary + size, owner + (doomed + (path + sha)));
  }

  /** The limit's measure of an inventory is its fixed part and its entries as compact JSON with
      sorted keys, in UTF-8. */
  lemma ManifestBytes(v: Inventory, digests: seq<string>)
    requires |v.files| == |digests| && forall i :: 0 <= i < |digests| ==> |digests[i]| == 64 && Ascii(digests[i])
    ensures ManifestLength(v) == |v.header| + |Bytes("[" + (EntriesText(v.files, digests) + "]"))|
  {
    EntriesTextBytes(v.files, digests);
    AsciiBytes("[");
    AsciiBytes("]");
    hide Bytes, EntriesText, EntriesLength;
    BytesJoin(EntriesText(v.files, digests), "]");
    BytesJoin("[", EntriesText(v.files, digests) + "]");
  }

  lemma {:induction false} EntriesTextBytes(files: seq<Entry>, digests: seq<string>)
    requires |files| == |digests| && forall i :: 0 <= i < |digests| ==> |digests[i]| == 64 && Ascii(digests[i])
    ensures |Bytes(EntriesText(files, digests))| == EntriesLength(files)
  {
    hide EntryText, EntryLength, Ascii;
    AsciiBytes("") by { assert Ascii("") by { NothingAscii(); } }
    if files != [] {
      var n := |files| - 1;
      EntriesTextBytes(files[..n], digests[..n]);
      EntryBytes(files[n], digests[n]);
      NothingAscii();
      AsciiBytes(",");
      hide Bytes;
      var comma := if n == 0 then "" else ",";
      BytesJoin(comma, EntryText(files[n], digests[n]));
      BytesJoin(EntriesText(files[..n], digests[..n]), comma + EntryText(files[n], digests[n]));
    }
  }

  lemma NothingAscii()
    ensures Ascii("") && Ascii(",")
  {
  }

  // ----- Long paths ----------------------------------------------------------------------------

  lemma {:induction false} CharsAreBytes(s: string)
    ensures CharsLength(s) >= |s|
  {
    if s != "" { CharsAreBytes(s[..|s| - 1]); }
  }

  lemma LongEntry(e: Entry)
    ensures EntryLength(e) >= |e.path|
  {
    CharsAreBytes(e.path);
    hide CharsLength, Dec;
  }

  /** Long paths make a long manifest. */
  lemma {:induction false} LongEntries(files: seq<Entry>, each: nat)
    requires forall i :: 0 <= i < |files| ==> |files[i].path| >= each
    ensures EntriesLength(files) >= each * |files|
  {
    hide EntryLength;
    if files != [] {
      var n := |files| - 1;
      LongEntries(files[..n], each);
      LongEntry(files[n]);
      assert each * |files| == each * n + each;
    }
  }
}
