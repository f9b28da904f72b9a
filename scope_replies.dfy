// Recognisers for the oscilloscope's replies. Each stands in for one
// std::regex the driver matches a whole reply against and returns the
// text of the pattern's capture group. The greedy number groups are
// followed by characters outside their class, so the regex's first match
// captures the longest run, which is what the recognisers take.

module ScopeReplies {
  import opened Numbers
  import opened Text

  predicate IsChannelDigit(c: char) { '1' <= c <= '4' }

  /** The class [0-9.] of an attenuation value. */
  predicate IsAttnChar(c: char) { IsDigit(c) || c == '.' }

  /** The class [0-9.E+-] of a measured value. */
  predicate IsMeasChar(c: char) { IsDigit(c) || c == '.' || c == 'E' || c == '+' || c == '-' }

  /** The class [\+\-\.0-9E] under icase, of a scale value. */
  predicate IsScaleChar(c: char) { IsMeasChar(c) || c == 'e' }

  /** The class [A-Z_] under icase. */
  predicate IsNameChar(c: char) { IsLetter(c) || c == '_' }

  predicate IsUnit(c: char) { c == 'V' || c == 'A' }
  predicate IsUnitI(c: char) { SameLetterI(c, 'V') || SameLetterI(c, 'A') }

  /** The text after a fixed prefix, when s starts with it. */
  function Skip(s: string, lit: string): (r: Option<string>)
    ensures r.Some? ==> s == lit + r.value
  {
    if |lit| <= |s| && s[..|lit|] == lit then
      assert s == s[..|lit|] + s[|lit|..];
      Some(s[|lit|..])
    else None
  }

  lemma SkipOf(lit: string, rest: string)
    ensures Skip(lit + rest, lit) == Some(rest)
  {
    assert (lit + rest)[..|lit|] == lit;
    assert (lit + rest)[|lit|..] == rest;
  }

  // ---------------------------------------------------------------------
  // "C<n>:ATTN <value>\n", case-sensitive (ReadChannelAtten)

  function AttnReply(d: char, value: string): string
  {
    "C" + ([d] + (":ATTN " + (value + "\n")))
  }

  function AttnValue(s: string): Option<string>
  {
    if |s| >= 2 && s[0] == 'C' && IsChannelDigit(s[1]) then
      match Skip(s[2..], ":ATTN ")
      case None => None
      case Some(r) =>
        var n := Run(r, 0, IsAttnChar);
        if n >= 1 && r[n..] == "\n" then Some(r[..n]) else None
    else None
  }

  /** A well-formed attenuation reply yields its value. */
  lemma AttnValueOf(d: char, value: string)
    requires IsChannelDigit(d) && |value| > 0 && All(value, IsAttnChar)
    ensures AttnValue(AttnReply(d, value)) == Some(value)
  {
    var s := AttnReply(d, value);
    assert s[2..] == ":ATTN " + (value + "\n");
    SkipOf(":ATTN ", value + "\n");
    RunOfConcat(value, "\n", IsAttnChar);
    assert (value + "\n")[..|value|] == value;
    assert (value + "\n")[|value|..] == "\n";
  }

  /** Whatever is accepted is a well-formed attenuation reply. */
  lemma AttnValueSound(s: string)
    requires AttnValue(s).Some?
    ensures exists d :: IsChannelDigit(d) && s == AttnReply(d, AttnValue(s).value)
    ensures |AttnValue(s).value| > 0 && All(AttnValue(s).value, IsAttnChar)
  {
    var r := Skip(s[2..], ":ATTN ").value;
    var n := Run(r, 0, IsAttnChar);
    RunText(r, IsAttnChar);
    assert r == r[..n] + r[n..];
    assert s == [s[0]] + [s[1]] + s[2..];
    assert s == AttnReply(s[1], r[..n]);
  }

  // ---------------------------------------------------------------------
  // "C<n>:PAVA <NAME>,<value><V|A><spaces>", case-sensitive (Measure)

  function PavaReply(d: char, name: string, value: string, unit: char, trail: string): string
  {
    "C" + ([d] + (":PAVA " + (name + ("," + (value + ([unit] + trail))))))
  }

  function PavaValue(s: string): Option<string>
  {
    if |s| >= 2 && s[0] == 'C' && IsChannelDigit(s[1]) then
      match Skip(s[2..], ":PAVA ")
      case None => None
      case Some(r) =>
        var n := Run(r, 0, IsUpperChar);
        if n >= 1 && n < |r| && r[n] == ',' then
          var t := r[n + 1..];
          var g := Run(t, 0, IsMeasChar);
          if g >= 1 && g < |t| && IsUnit(t[g]) && All(t[g + 1..], IsSpace) then Some(t[..g]) else None
        else None
    else None
  }

  predicate IsUpperChar(c: char) { IsUpper(c) }

  /** A well-formed measurement reply yields its value. */
  lemma PavaValueOf(d: char, name: string, value: string, unit: char, trail: string)
    requires IsChannelDigit(d) && |name| > 0 && All(name, IsUpperChar)
    requires |value| > 0 && All(value, IsMeasChar) && IsUnit(unit) && All(trail, IsSpace)
    ensures PavaValue(PavaReply(d, name, value, unit, trail)) == Some(value)
  {
    var t := value + ([unit] + trail);
    var r := name + ("," + t);
    var s := PavaReply(d, name, value, unit, trail);
    assert s[2..] == ":PAVA " + r;
    SkipOf(":PAVA ", r);
    RunOfConcat(name, "," + t, IsUpperChar);
    assert r[|name|] == ',';
    assert r[|name| + 1..] == t;
    RunOfConcat(value, [unit] + trail, IsMeasChar);
    assert t[|value|] == unit;
    assert t[|value| + 1..] == trail;
    assert t[..|value|] == value;
  }

  /** Whatever is accepted is a well-formed measurement reply. */
  lemma PavaValueSound(s: string)
    requires PavaValue(s).Some?
    ensures exists d, name, unit, trail ::
      && IsChannelDigit(d) && |name| > 0 && All(name, IsUpperChar)
      && IsUnit(unit) && All(trail, IsSpace) && s == PavaReply(d, name, PavaValue(s).value, unit, trail)
    ensures |PavaValue(s).value| > 0 && All(PavaValue(s).value, IsMeasChar)
  {
    var r := Skip(s[2..], ":PAVA ").value;
    var n := Run(r, 0, IsUpperChar);
    RunText(r, IsUpperChar);
    var t := r[n + 1..];
    var g := Run(t, 0, IsMeasChar);
    RunText(t, IsMeasChar);
    PavaReassemble(s, r, n, g);
  }

  lemma PavaReassemble(s: string, r: string, n: nat, g: nat)
    requires |s| >= 2 && s[0] == 'C' && s[2..] == ":PAVA " + r
    requires n < |r| && r[n] == ',' && g < |r[n + 1..]|
    ensures var t := r[n + 1..]; s == PavaReply(s[1], r[..n], t[..g], t[g], t[g + 1..])
  {
    var t := r[n + 1..];
    var name, value, unit, trail := r[..n], t[..g], t[g], t[g + 1..];
    assert t == value + ([unit] + trail) by {
      assert t == t[..g] + t[g..];
      assert t[g..] == [t[g]] + t[g + 1..];
    }
    assert r == name + ("," + t) by {
      assert r == r[..n] + r[n..];
      assert r[n..] == [r[n]] + r[n + 1..];
    }
    assert s == "C" + ([s[1]] + s[2..]) by {
      assert s == s[..2] + s[2..];
      assert s[..2] == [s[0]] + [s[1]];
    }
  }

  // ---------------------------------------------------------------------
  // "C<n>-C<m>:MEAD <TOKEN>,<value><letters><spaces>", case-sensitive
  // (MeasureDelay); the token is the one the query asked for.

  function MeadReply(d1: char, d2: char, token: string, value: string, suffix: string, trail: string): string
  {
    "C" + ([d1] + ("-C" + ([d2] + (":MEAD " + (token + ("," + (value + (suffix + trail))))))))
  }

  function MeadValue(s: string, token: string): Option<string>
  {
    if |s| >= 5 && s[0] == 'C' && IsChannelDigit(s[1]) && s[2] == '-' && s[3] == 'C' && IsChannelDigit(s[4]) then
      match Skip(s[5..], ":MEAD " + token + ",")
      case None => None
      case Some(t) =>
        var g := Run(t, 0, IsMeasChar);
        var u := t[g..];
        var l := Run(u, 0, IsLetter);
        if g >= 1 && All(u[l..], IsSpace) then Some(t[..g]) else None
    else None
  }

  /** A well-formed delay reply yields its value. The unit letters must not
    * start with 'E', which the value's class would take. */
  lemma MeadValueOf(d1: char, d2: char, token: string, value: string, suffix: string, trail: string)
    requires IsChannelDigit(d1) && IsChannelDigit(d2)
    requires |value| > 0 && All(value, IsMeasChar) && All(suffix, IsLetter) && All(trail, IsSpace)
    requires suffix == [] || suffix[0] != 'E'
    ensures MeadValue(MeadReply(d1, d2, token, value, suffix, trail), token) == Some(value)
  {
    var u := suffix + trail;
    var t := value + u;
    var s := MeadReply(d1, d2, token, value, suffix, trail);
    assert s[5..] == (":MEAD " + token + ",") + t;
    SkipOf(":MEAD " + token + ",", t);
    assert u != [] ==> u[0] == (if suffix != [] then suffix[0] else trail[0]);
    RunOfConcat(value, u, IsMeasChar);
    assert t[|value|..] == u && t[..|value|] == value;
    assert trail != [] ==> !IsLetter(trail[0]);
    RunOfConcat(suffix, trail, IsLetter);
    assert u[|suffix|..] == trail;
  }

  /** The instrument's "****" for an invalid measurement is refused. */
  lemma MeadStars(d1: char, d2: char, token: string, rest: string)
    ensures MeadValue("C" + ([d1] + ("-C" + ([d2] + (":MEAD " + (token + ("," + ("****" + rest))))))), token).None?
  {
    var s := "C" + ([d1] + ("-C" + ([d2] + (":MEAD " + (token + ("," + ("****" + rest)))))));
    if IsChannelDigit(d1) && IsChannelDigit(d2) {
      assert s[5..] == (":MEAD " + token + ",") + ("****" + rest);
      SkipOf(":MEAD " + token + ",", "****" + rest);
      assert ("****" + rest)[0] == '*';
    }
  }

  /** Whatever is accepted is a well-formed delay reply. */
  lemma MeadValueSound(s: string, token: string)
    requires MeadValue(s, token).Some?
    ensures exists d1, d2, suffix, trail ::
      && IsChannelDigit(d1) && IsChannelDigit(d2) && All(suffix, IsLetter) && All(trail, IsSpace)
      && s == MeadReply(d1, d2, token, MeadValue(s, token).value, suffix, trail)
    ensures |MeadValue(s, token).value| > 0 && All(MeadValue(s, token).value, IsMeasChar)
  {
    var t := Skip(s[5..], ":MEAD " + token + ",").value;
    var g := Run(t, 0, IsMeasChar);
    RunText(t, IsMeasChar);
    var u := t[g..];
    var l := Run(u, 0, IsLetter);
    RunText(u, IsLetter);
    MeadReassemble(s, token, t, g, l);
  }

  lemma MeadReassemble(s: string, token: string, t: string, g: nat, l: nat)
    requires |s| >= 5 && s[0] == 'C' && s[2] == '-' && s[3] == 'C'
    requires s[5..] == (":MEAD " + token + ",") + t
    requires g <= |t| && l <= |t[g..]|
    ensures var u := t[g..]; s == MeadReply(s[1], s[4], token, t[..g], u[..l], u[l..])
  {
    var u := t[g..];
    assert t == t[..g] + (u[..l] + u[l..]);
    assert s == "C" + ([s[1]] + ("-C" + ([s[4]] + s[5..]))) by {
      assert s == s[..5] + s[5..];
      assert s[..5] == "C" + ([s[1]] + ("-C" + [s[4]]));
    }
  }

  // ---------------------------------------------------------------------
  // "C<n>:V<NAME> <value><V|A>\n" and "C<n>:O<NAME> <value><V|A>\n",
  // ignoring case (the volts/div and offset queries of AdjustChannelVolts)

  function ScaleReply(c: char, d: char, lead: char, name: string, value: string, unit: char): string
  {
    [c] + ([d] + (":" + ([lead] + (name + (" " + (value + ([unit] + "\n")))))))
  }

  function ScaleValue(s: string, lead: char, nameChar: char -> bool): Option<string>
  {
    if |s| >= 4 && SameLetterI(s[0], 'C') && IsChannelDigit(s[1]) && s[2] == ':' && SameLetterI(s[3], lead) then
      var r := s[4..];
      var n := Run(r, 0, nameChar);
      if n >= 1 && n < |r| && r[n] == ' ' then
        var t := r[n + 1..];
        var g := Run(t, 0, IsScaleChar);
        if g >= 1 && |t| == g + 2 && IsUnitI(t[g]) && t[g + 1] == '\n' then Some(t[..g]) else None
      else None
    else None
  }

  /** The volts/div reply: "V" then [A-Z_]+. */
  function VdivValue(s: string): Option<string> { ScaleValue(s, 'V', IsNameChar) }

  /** The offset reply: "O" then [A-Z]+. */
  function OffsetValue(s: string): Option<string> { ScaleValue(s, 'O', IsLetter) }

  /** A well-formed scale reply yields its value. */
  lemma ScaleValueOf(c: char, d: char, lead: char, l: char, nameChar: char -> bool,
                     name: string, value: string, unit: char)
    requires SameLetterI(c, 'C') && IsChannelDigit(d) && SameLetterI(l, lead)
    requires !nameChar(' ') && |name| > 0 && All(name, nameChar)
    requires |value| > 0 && All(value, IsScaleChar) && IsUnitI(unit)
    ensures ScaleValue(ScaleReply(c, d, l, name, value, unit), lead, nameChar) == Some(value)
  {
    var t := value + ([unit] + "\n");
    var r := name + (" " + t);
    var s := ScaleReply(c, d, l, name, value, unit);
    assert s[4..] == r;
    RunOfConcat(name, " " + t, nameChar);
    assert r[|name|] == ' ' && r[|name| + 1..] == t;
    RunOfConcat(value, [unit] + "\n", IsScaleChar);
    assert t[|value|] == unit && t[|value| + 1] == '\n' && t[..|value|] == value;
  }

  /** Whatever is accepted is a well-formed scale reply. */
  lemma ScaleValueSound(s: string, lead: char, nameChar: char -> bool)
    requires ScaleValue(s, lead, nameChar).Some?
    ensures exists c, d, l, name, unit ::
      && SameLetterI(c, 'C') && IsChannelDigit(d) && SameLetterI(l, lead)
      && |name| > 0 && All(name, nameChar) && IsUnitI(unit)
      && s == ScaleReply(c, d, l, name, ScaleValue(s, lead, nameChar).value, unit)
    ensures |ScaleValue(s, lead, nameChar).value| > 0 && All(ScaleValue(s, lead, nameChar).value, IsScaleChar)
  {
    var r := s[4..];
    var n := Run(r, 0, nameChar);
    RunText(r, nameChar);
    var t := r[n + 1..];
    var g := Run(t, 0, IsScaleChar);
    RunText(t, IsScaleChar);
    ScaleReassemble(s, n, g);
  }

  lemma ScaleReassemble(s: string, n: nat, g: nat)
    requires |s| >= 4 && s[2] == ':' && n < |s[4..]| && s[4..][n] == ' '
    requires var t := s[4..][n + 1..]; |t| == g + 2 && t[g + 1] == '\n'
    ensures var r := s[4..]; var t := r[n + 1..];
      s == ScaleReply(s[0], s[1], s[3], r[..n], t[..g], t[g])
  {
    var r := s[4..];
    var t := r[n + 1..];
    assert t == t[..g] + ([t[g]] + "\n");
    assert r == r[..n] + (" " + t);
    assert s == [s[0]] + ([s[1]] + (":" + ([s[3]] + r))) by {
      assert s == s[..4] + s[4..];
      assert s[..4] == [s[0]] + ([s[1]] + (":" + [s[3]]));
    }
  }

  // ---------------------------------------------------------------------
  // "C<n>:ATT<NAME> <anything>\n", ignoring case (SetEdgeTrigger)

  function EdgeAttnReply(c: char, d: char, att: string, name: string, value: string): string
  {
    [c] + ([d] + (":" + (att + (name + (" " + (value + "\n"))))))
  }

  function EdgeAttnValue(s: string): Option<string>
  {
    if |s| >= 6 && SameLetterI(s[0], 'C') && IsChannelDigit(s[1]) && s[2] == ':' && EqI(s[3..6], "ATT") then
      var r := s[6..];
      var n := Run(r, 0, IsLetter);
      if n >= 1 && n < |r| && r[n] == ' ' then
        var t := r[n + 1..];
        if |t| >= 2 && t[|t| - 1] == '\n' && All(t[..|t| - 1], IsDot) then Some(t[..|t| - 1]) else None
      else None
    else None
  }

  /** A well-formed attenuation reply yields everything between the space
    * and the final newline. */
  lemma EdgeAttnValueOf(c: char, d: char, att: string, name: string, value: string)
    requires SameLetterI(c, 'C') && IsChannelDigit(d) && EqI(att, "ATT")
    requires |name| > 0 && All(name, IsLetter) && |value| > 0 && All(value, IsDot)
    ensures EdgeAttnValue(EdgeAttnReply(c, d, att, name, value)) == Some(value)
  {
    var t := value + "\n";
    var r := name + (" " + t);
    var s := EdgeAttnReply(c, d, att, name, value);
    assert s[3..6] == att;
    assert s[6..] == r;
    RunOfConcat(name, " " + t, IsLetter);
    assert r[|name|] == ' ' && r[|name| + 1..] == t;
    assert t[..|t| - 1] == value;
  }

  /** Whatever is accepted is a well-formed attenuation reply. */
  lemma EdgeAttnValueSound(s: string)
    requires EdgeAttnValue(s).Some?
    ensures exists c, d, att, name ::
      && SameLetterI(c, 'C') && IsChannelDigit(d) && EqI(att, "ATT") && |name| > 0 && All(name, IsLetter)
      && s == EdgeAttnReply(c, d, att, name, EdgeAttnValue(s).value)
    ensures |EdgeAttnValue(s).value| > 0 && All(EdgeAttnValue(s).value, IsDot)
  {
    var r := s[6..];
    var n := Run(r, 0, IsLetter);
    RunText(r, IsLetter);
    EdgeAttnReassemble(s, n);
  }

  lemma EdgeAttnReassemble(s: string, n: nat)
    requires |s| >= 6 && s[2] == ':' && n < |s[6..]| && s[6..][n] == ' '
    requires var t := s[6..][n + 1..]; |t| >= 1 && t[|t| - 1] == '\n'
    ensures var r := s[6..]; var t := r[n + 1..];
      s == EdgeAttnReply(s[0], s[1], s[3..6], r[..n], t[..|t| - 1])
  {
    var r := s[6..];
    var t := r[n + 1..];
    assert t == t[..|t| - 1] + "\n";
    assert r == r[..n] + (" " + t);
    assert s[3..] == s[3..6] + r;
    assert s[2..] == ":" + s[3..];
    assert s[1..] == [s[1]] + s[2..];
    assert s == [s[0]] + s[1..];
  }
}
