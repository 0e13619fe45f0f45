/** `CapabilityBinding.tool_name`: the key's punctuation is escaped by three replacements in turn. */
module ToolNames {
  import opened Base
  import opened Text

  const PREFIX := "capability__"

  /** `str.replace` of one character by an escape. */
  function Replace(s: string, c: char, escape: string): string {
    if s == [] then [] else (if s[0] == c then escape else [s[0]]) + Replace(s[1..], c, escape)
  }

  function Encode(key: string): string {
    Replace(Replace(Replace(key, '_', "_u"), '.', "_d"), '-', "_h")
  }

  function ToolName(key: string, version: nat): string { PREFIX + (Encode(key) + ("__v" + Decimal(version))) }

  // --------------------------------------------- one pass over the key

  /** What the three replacements leave of one character. */
  function Escape(c: char): string {
    if c == '_' then "_u" else if c == '.' then "_d" else if c == '-' then "_h" else [c]
  }

  function Escaped(s: string): string {
    if s == [] then [] else Escape(s[0]) + Escaped(s[1..])
  }

  lemma {:induction false} ReplaceAppends(a: string, b: string, c: char, escape: string)
    ensures Replace(a + b, c, escape) == Replace(a, c, escape) + Replace(b, c, escape)
    decreases |a|
  {
    if a == [] {
      assert a + b == b;
    } else {
      ReplaceAppends(a[1..], b, c, escape);
      assert (a + b)[1..] == a[1..] + b;
      ConcatAssociates(if a[0] == c then escape else [a[0]], Replace(a[1..], c, escape), Replace(b, c, escape));
    }
  }

  lemma {:induction false} EncodeAppends(a: string, b: string)
    ensures Encode(a + b) == Encode(a) + Encode(b)
  {
    ReplaceAppends(a, b, '_', "_u");
    var (a1, b1) := (Replace(a, '_', "_u"), Replace(b, '_', "_u"));
    ReplaceAppends(a1, b1, '.', "_d");
    ReplaceAppends(Replace(a1, '.', "_d"), Replace(b1, '.', "_d"), '-', "_h");
  }

  lemma {:induction false} ReplaceOne(c: char, from: char, escape: string)
    ensures Replace([c], from, escape) == if c == from then escape else [c]
  {
    assert [c][1..] == [];
  }

  lemma {:induction false} ReplaceTwo(a: char, b: char, from: char, escape: string)
    requires a != from && b != from
    ensures Replace([a, b], from, escape) == [a, b]
  {
    assert [a, b][1..] == [b];
    ReplaceOne(b, from, escape);
  }

  /** The later replacements do not touch what the earlier ones wrote. */
  lemma {:induction false} EncodeOne(c: char)
    ensures Encode([c]) == Escape(c)
  {
    ReplaceOne(c, '_', "_u");
    if c == '_' {
      ReplaceTwo('_', 'u', '.', "_d");
      ReplaceTwo('_', 'u', '-', "_h");
    } else {
      ReplaceOne(c, '.', "_d");
      if c == '.' {
        ReplaceTwo('_', 'd', '-', "_h");
      } else {
        ReplaceOne(c, '-', "_h");
      }
    }
  }

  lemma {:induction false} EncodeIsEscaped(s: string)
    ensures Encode(s) == Escaped(s)
  {
    if s != [] {
      assert s == [s[0]] + s[1..];
      EncodeAppends([s[0]], s[1..]);
      EncodeOne(s[0]);
      EncodeIsEscaped(s[1..]);
    }
  }

  // ----------------------------------------------------------- reading back

  /** The key of an encoded string, up to a double underscore or the end, and what follows. */
  function Decode(s: string): (string, string)
    decreases |s|
  {
    if s == [] then ("", "")
    else if s[0] != '_' then var (key, rest) := Decode(s[1..]); ([s[0]] + key, rest)
    else if |s| > 1 && (s[1] == 'u' || s[1] == 'd' || s[1] == 'h') then
      var (key, rest) := Decode(s[2..]);
      ([if s[1] == 'u' then '_' else if s[1] == 'd' then '.' else '-'] + key, rest)
    else ("", s)
  }

  lemma {:induction false} DecodesOne(c: char, more: string)
    ensures Decode(Escape(c) + more) == ([c] + Decode(more).0, Decode(more).1)
  {
    assert (Escape(c) + more)[|Escape(c)|..] == more;
  }

  lemma {:induction false} DecodesEscaped(s: string, rest: string)
    requires rest == [] || (|rest| > 1 && rest[0] == '_' && rest[1] == '_')
    ensures Decode(Escaped(s) + rest) == (s, rest)
    decreases |s|
  {
    if s == [] {
      assert Escaped(s) + rest == rest;
    } else {
      DecodesEscaped(s[1..], rest);
      ConcatAssociates(Escape(s[0]), Escaped(s[1..]), rest);
      DecodesOne(s[0], Escaped(s[1..]) + rest);
      assert s == [s[0]] + s[1..];
    }
  }

  /** An encoded key holds no double underscore and does not end in one. */
  ghost predicate SingleUnderscores(s: string) {
    forall i :: 0 <= i < |s| && s[i] == '_' ==> i + 1 < |s| && s[i + 1] != '_'
  }

  lemma {:induction false} EscapedHasNoDouble(s: string)
    ensures SingleUnderscores(Escaped(s))
  {
    if s != [] {
      EscapedHasNoDouble(s[1..]);
      var c, more := Escape(s[0]), Escaped(s[1..]);
      forall i | 0 <= i < |c + more| && (c + more)[i] == '_'
        ensures i + 1 < |c + more| && (c + more)[i + 1] != '_'
      {
        if i >= |c| {
          assert more[i - |c|] == '_';
        }
      }
    }
  }

  /** Prefix, key and contract version of a tool name. */
  lemma {:induction false} NameIsReadable(key: string, version: nat)
    ensures SingleUnderscores(Encode(key))
    ensures var name := ToolName(key, version);
      && StartsWith(name, PREFIX)
      && Decode(Drop(name, PREFIX)) == (key, "__v" + Decimal(version))
      && Read(Drop("__v" + Decimal(version), "__v")) == (version, "")
  {
    EncodeIsEscaped(key);
    EscapedHasNoDouble(key);
    var suffix := "__v" + Decimal(version);
    DecodesEscaped(key, suffix);
    assert Decimal(version) + "" == Decimal(version);
    ReadsNumber(version, "");
  }

  /** Two bindings never share a tool name. */
  lemma {:induction false} NamesAreDistinct(key: string, version: nat, key': string, version': nat)
    requires ToolName(key, version) == ToolName(key', version')
    ensures key == key' && version == version'
  {
    NameIsReadable(key, version);
    NameIsReadable(key', version');
  }
}
