/** The text format of the stored session user. The client serialises the user
    with `JSON.stringify` and reads it back with `JSON.parse`; this model uses
    a self-contained field codec in its place: every field is escaped and
    terminated by a separator. What the client relies on, and what is proved
    here, is the round trip: decoding an encoded value gives the value back. */
module Codec {
  import opened Wrappers

  const Separator: char := ';'
  const EscapeChar: char := '\\'

  function EscapeField(f: string): (r: string)
    ensures |r| >= |f|
  {
    if f == [] then []
    else
      (if f[0] == Separator || f[0] == EscapeChar then [EscapeChar, f[0]] else [f[0]])
      + EscapeField(f[1..])
  }

  /** Each field escaped and followed by a separator. */
  function EncodeFields(fields: seq<string>): string {
    if fields == [] then []
    else EscapeField(fields[0]) + [Separator] + EncodeFields(fields[1..])
  }

  /** Reads one escaped field up to its separator; returns the field and the
      text after the separator, or None when the text is not well formed. */
  function ReadField(s: string): (r: Option<(string, string)>)
    ensures r.Some? ==> |r.value.1| < |s|
  {
    if s == [] then None
    else if s[0] == Separator then Some(([], s[1..]))
    else if s[0] == EscapeChar then
      if |s| < 2 || !(s[1] == Separator || s[1] == EscapeChar) then None
      else
        match ReadField(s[2..])
        case None => None
        case Some((f, rest)) => Some(([s[1]] + f, rest))
    else
      match ReadField(s[1..])
      case None => None
      case Some((f, rest)) => Some(([s[0]] + f, rest))
  }

  /** Splits a whole text into its fields, or None when it is malformed. */
  function DecodeFields(s: string): Option<seq<string>>
    decreases |s|
  {
    if s == [] then Some([])
    else
      match ReadField(s)
      case None => None
      case Some((f, rest)) =>
        match DecodeFields(rest)
        case None => None
        case Some(fs) => Some([f] + fs)
  }

  /** Escaping is character by character. */
  lemma EscapeFirst(f: string)
    requires f != []
    ensures EscapeField(f) == EscapeField([f[0]]) + EscapeField(f[1..])
  {
    assert [f[0]][1..] == [];
  }

  /** Reading past one escaped character: a special character takes its
      escape and itself, any other character only itself. */
  lemma ReadEscapedChar(c: char, tail: string, f: string, rest: string)
    requires ReadField(tail) == Some((f, rest))
    ensures ReadField(EscapeField([c]) + tail) == Some(([c] + f, rest))
  {
    var s := EscapeField([c]) + tail;
    assert [c][1..] == [];
    if c == Separator || c == EscapeChar {
      assert EscapeField([c]) == [EscapeChar, c];
      assert s[2..] == tail;
    } else {
      assert EscapeField([c]) == [c];
      assert s[1..] == tail;
    }
  }

  lemma {:induction false} ReadEscapedField(f: string, rest: string)
    ensures ReadField(EscapeField(f) + [Separator] + rest) == Some((f, rest))
  {
    if f == [] {
      assert EscapeField(f) + [Separator] + rest == [Separator] + rest;
    } else {
      var tail := EscapeField(f[1..]) + [Separator] + rest;
      ReadEscapedField(f[1..], rest);
      EscapeFirst(f);
      assert EscapeField(f) + [Separator] + rest == EscapeField([f[0]]) + tail;
      ReadEscapedChar(f[0], tail, f[1..], rest);
      assert [f[0]] + f[1..] == f;
    }
  }

  /** Round trip: decoding the encoding of any field list gives it back. */
  lemma {:induction false} DecodeEncodeFields(fields: seq<string>)
    ensures DecodeFields(EncodeFields(fields)) == Some(fields)
  {
    if fields != [] {
      var s := EncodeFields(fields);
      var rest := EncodeFields(fields[1..]);
      assert s == EscapeField(fields[0]) + [Separator] + rest;
      ReadEscapedField(fields[0], rest);
      DecodeEncodeFields(fields[1..]);
      assert [fields[0]] + fields[1..] == fields;
    }
  }
}
