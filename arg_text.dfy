// Text helpers of the command-line front end (MeasureResponse.cpp):
// case-insensitive comparison, numbers with an SI suffix, the pieces of a
// file name, and the comma-separated lists that the stimulus, trigger and
// measurement arguments are written in. The std::regex patterns are
// replaced by hand-written recognisers that accept the same texts and
// capture the same groups.

module ArgText {
  import opened Numbers
  import opened Text

  /** A text a regex `.` can run over: no line terminators. */
  predicate OneLine(s: string) { forall i :: 0 <= i < |s| ==> IsDot(s[i]) }

  // ---------------------------------------------------------------------
  // str_compare_icase

  /** str_compare_icase: both texts are equal once upper-cased. */
  predicate SameIcase(a: string, b: string) { UpperStr(a) == UpperStr(b) }

  /** Comparing upper-cased copies is comparing letter by letter without
    * regard to case; the comparison is reflexive and symmetric. */
  lemma SameIcaseMeans(a: string, b: string)
    ensures SameIcase(a, b) <==> EqI(a, b)
    ensures SameIcase(a, b) == SameIcase(b, a) && SameIcase(a, a)
  {
    if SameIcase(a, b) {
      assert |a| == |UpperStr(a)| == |UpperStr(b)| == |b|;
      forall i | 0 <= i < |a|
        ensures SameLetterI(a[i], b[i])
      {
        assert UpperStr(a)[i] == UpperStr(b)[i];
      }
    }
    if EqI(a, b) {
      forall i | 0 <= i < |a|
        ensures UpperStr(a)[i] == UpperStr(b)[i]
      {
        assert SameLetterI(a[i], b[i]);
      }
    }
  }

  // ---------------------------------------------------------------------
  // to_value

  /** The factor a suffix letter stands for: k or K kilo, m milli, M mega.
    * Any other first letter, or no suffix, scales nothing. */
  function SuffixScale(suffix: string): Option<real>
  {
    if suffix == [] then None
    else match suffix[0]
      case 'k' => Some(1000.0)
      case 'K' => Some(1000.0)
      case 'm' => Some(0.001)
      case 'M' => Some(1000000.0)
      case _ => None
  }

  function Multiplier(suffix: string): real
  {
    match SuffixScale(suffix)
    case None => 1.0
    case Some(k) => k
  }

  /** to_value: stod of the base, scaled by the suffix, negated when the
    * sign text starts with '-'. */
  function ToValue(stod: string -> Double, base: string, suffix: string, sign: string): Double
  {
    var v := stod(base);
    var scaled := match SuffixScale(suffix)
      case None => v
      case Some(k) => Mul(v, Num(k));
    if sign != [] && sign[0] == '-' then Mul(Num(-1.0), scaled) else scaled
  }

  /** A number is multiplied by its suffix's factor; NaN stays NaN; a sign
    * text starting with '-' negates the unsigned value and any other sign
    * text leaves it alone. */
  lemma ToValueScaling(stod: string -> Double, base: string, suffix: string, sign: string)
    ensures var u := ToValue(stod, base, suffix, "");
      && (stod(base).Num? ==> u == Num(Multiplier(suffix) * stod(base).v))
      && (u.NaN? <==> stod(base).NaN?)
      && ToValue(stod, base, suffix, sign) == (if sign != [] && sign[0] == '-' then Neg(u) else u)
  {
    var u := ToValue(stod, base, suffix, "");
    if sign != [] && sign[0] == '-' {
      match u
      case NaN =>
      case Inf(n) =>
      case Num(a) => assert Mul(Num(-1.0), u) == Num(-a);
    }
  }

  // ---------------------------------------------------------------------
  // strip_path and get_suffix

  /** A number read by stod stays a number once scaled and signed. */
  lemma ToValueNumber(stod: string -> Double, base: string, suffix: string, sign: string)
    requires stod(base).Num?
    ensures ToValue(stod, base, suffix, sign).Num?
  {
  }

  predicate IsSeparator(c: char) { c == '/' || c == '\\' }
  predicate IsPeriod(c: char) { c == '.' }

  /** The last index below n whose character satisfies p. */
  function LastBelow(s: string, n: nat, p: char -> bool): (r: Option<nat>)
    requires n <= |s|
    ensures r.Some? ==> r.value < n && p(s[r.value])
    ensures forall k :: (if r.Some? then r.value + 1 else 0) <= k < n ==> !p(s[k])
    decreases n
  {
    if n == 0 then None
    else if p(s[n - 1]) then Some(n - 1)
    else LastBelow(s, n - 1, p)
  }

  /** strip_path, ^(?:.*)(?:\/|\\)(.+?)$ : the text after the last
    * separator that is not the final character; the whole name when there
    * is no such separator or the name spans lines. */
  function StripPath(filename: string): (r: string)
    ensures |r| <= |filename| && r == filename[|filename| - |r|..]
    ensures r == [] <==> filename == []
    ensures r != filename ==> IsSeparator(filename[|filename| - |r| - 1])
    ensures r != filename ==> forall k :: 0 <= k < |r| - 1 ==> !IsSeparator(r[k])
  {
    if filename == [] || !OneLine(filename) then filename
    else match LastBelow(filename, |filename| - 1, IsSeparator)
      case None => filename
      case Some(p) => filename[p + 1..]
  }

  /** A directory, a separator and a name: the name is what remains. */
  lemma StripPathOf(dir: string, sep: char, name: string)
    requires IsSeparator(sep) && name != [] && OneLine(dir) && OneLine(name)
    requires forall k :: 0 <= k < |name| - 1 ==> !IsSeparator(name[k])
    ensures StripPath(dir + [sep] + name) == name
  {
    var f := dir + [sep] + name;
    assert OneLine(f) by {
      forall i | 0 <= i < |f|
        ensures IsDot(f[i])
      {
        if i < |dir| { assert f[i] == dir[i]; }
        else if i > |dir| { assert f[i] == name[i - |dir| - 1]; }
      }
    }
    var r := LastBelow(f, |f| - 1, IsSeparator);
    assert f[|dir|] == sep;
    forall k | |dir| < k < |f| - 1
      ensures !IsSeparator(f[k])
    {
      assert f[k] == name[k - |dir| - 1];
    }
    assert r == Some(|dir|);
    assert f[|dir| + 1..] == name;
  }

  /** A name with no separator before its last character is left whole. */
  lemma StripPathKeeps(filename: string)
    requires forall k :: 0 <= k < |filename| - 1 ==> !IsSeparator(filename[k])
    ensures StripPath(filename) == filename
  {
    if filename != [] && OneLine(filename) {
      assert LastBelow(filename, |filename| - 1, IsSeparator).None?;
    }
  }

  predicate AlnumFrom(s: string, i: nat)
    requires i <= |s|
  {
    forall k :: i <= k < |s| ==> IsAlnum(s[k])
  }

  /** get_suffix, ^.+(\.[a-zA-Z0-9]+?)$ : the last '.' and the letters and
    * digits after it, when at least one character comes before that '.'
    * and at least one letter or digit after it; otherwise empty. */
  function GetSuffix(filename: string): (r: string)
    ensures r != [] ==> 2 <= |r| < |filename| && r == filename[|filename| - |r|..]
    ensures r != [] ==> r[0] == '.' && forall k :: 1 <= k < |r| ==> IsAlnum(r[k])
  {
    if !OneLine(filename) then []
    else match LastBelow(filename, |filename|, IsPeriod)
      case None => []
      case Some(p) =>
        if 1 <= p && p + 1 < |filename| && AlnumFrom(filename, p + 1) then filename[p..] else []
  }

  /** A name, a '.' and letters or digits: the suffix is the '.' and what
    * follows it. */
  lemma GetSuffixOf(name: string, ext: string)
    requires name != [] && OneLine(name)
    requires ext != [] && forall k :: 0 <= k < |ext| ==> IsAlnum(ext[k])
    ensures GetSuffix(name + "." + ext) == "." + ext
  {
    var f := name + "." + ext;
    assert OneLine(f) by {
      forall i | 0 <= i < |f|
        ensures IsDot(f[i])
      {
        if i < |name| { assert f[i] == name[i]; }
        else if i > |name| { assert f[i] == ext[i - |name| - 1]; assert IsAlnum(ext[i - |name| - 1]); }
      }
    }
    forall k | |name| < k < |f|
      ensures IsAlnum(f[k]) && !IsPeriod(f[k])
    {
      assert f[k] == ext[k - |name| - 1];
    }
    var r := LastBelow(f, |f|, IsPeriod);
    assert f[|name|] == '.';
    assert r == Some(|name|);
    assert f[|name|..] == "." + ext;
  }

  // ---------------------------------------------------------------------
  // Comma-separated specifications

  /** The first comma at or after i, or |s| when there is none. */
  function CommaFrom(s: string, i: nat): (j: nat)
    requires i <= |s|
    ensures i <= j <= |s| && (j < |s| ==> s[j] == ',')
    ensures forall k :: i <= k < j ==> s[k] != ','
    decreases |s| - i
  {
    if i == |s| || s[i] == ',' then i else CommaFrom(s, i + 1)
  }

  /** One argument of a specification and the text after its comma. */
  datatype Cut = Cut(arg: string, rest: string)

  /** A token as reComma cuts them: not empty, on one line, and with no
    * comma after its first character. */
  predicate IsToken(t: string)
  {
    t != [] && OneLine(t) && forall k :: 1 <= k < |t| ==> t[k] != ','
  }

  /** reComma, ^(.+?)(?:,(.*))?$ : the shortest non-empty argument that
    * ends the text or stands before a comma; the text after that comma.
    * A line terminator anywhere defeats the match. */
  function Comma(s: string): (r: Option<Cut>)
    ensures r.Some? <==> s != [] && OneLine(s)
    ensures r.Some? ==> IsToken(r.value.arg) && OneLine(r.value.rest)
    ensures r.Some? ==> |r.value.rest| < |s|
    ensures r.Some? ==> s == r.value.arg || s == r.value.arg + "," + r.value.rest
    ensures r.Some? && s == r.value.arg ==> r.value.rest == []
  {
    if s == [] || !OneLine(s) then None
    else
      var j := CommaFrom(s, 1);
      var rest := if j < |s| then s[j + 1..] else [];
      assert j < |s| ==> s == s[..j] + "," + rest;
      Some(Cut(s[..j], rest))
  }

  /** The arguments of a one-line specification, in order. */
  function Tokens(s: string): (r: seq<string>)
    requires OneLine(s)
    ensures forall i :: 0 <= i < |r| ==> IsToken(r[i])
    ensures r == [] <==> s == []
    decreases |s|
  {
    if s == [] then [] else var c := Comma(s).value; [c.arg] + Tokens(c.rest)
  }

  /** Arguments written back, separated by commas. */
  function Join(toks: seq<string>): string
  {
    if toks == [] then []
    else if |toks| == 1 then toks[0]
    else toks[0] + "," + Join(toks[1..])
  }

  lemma {:induction false} JoinOneLine(toks: seq<string>)
    requires forall i :: 0 <= i < |toks| ==> IsToken(toks[i])
    ensures OneLine(Join(toks))
    ensures toks != [] ==> Join(toks)[..|toks[0]|] == toks[0]
    ensures |toks| > 1 ==> |Join(toks)| > |toks[0]| && Join(toks)[|toks[0]|] == ','
  {
    if |toks| > 1 {
      JoinOneLine(toks[1..]);
      var j := Join(toks);
      assert j == toks[0] + ("," + Join(toks[1..]));
      forall i | 0 <= i < |j|
        ensures IsDot(j[i])
      {
        if i < |toks[0]| { assert j[i] == toks[0][i]; }
        else if i > |toks[0]| { assert j[i] == Join(toks[1..])[i - |toks[0]| - 1]; }
      }
    }
  }

  /** Cutting joined tokens gives the tokens back. */
  lemma {:induction false} TokensOfJoin(toks: seq<string>)
    requires forall i :: 0 <= i < |toks| ==> IsToken(toks[i])
    ensures OneLine(Join(toks)) && Tokens(Join(toks)) == toks
  {
    JoinOneLine(toks);
    if toks != [] {
      var s := Join(toks);
      var t := toks[0];
      var j := CommaFrom(s, 1);
      if |toks| == 1 {
        assert CommaFrom(s, 1) == |s|;
      } else {
        JoinOneLine(toks[1..]);
        assert forall k :: 1 <= k < |t| ==> s[k] == t[k];
        assert j == |t|;
        assert s[j + 1..] == Join(toks[1..]);
        TokensOfJoin(toks[1..]);
      }
    }
  }

  /** Joining the tokens of a specification gives it back, up to a comma
    * that ended it. */
  lemma {:induction false} JoinOfTokens(s: string)
    requires OneLine(s)
    ensures Join(Tokens(s)) == s || Join(Tokens(s)) + "," == s
    decreases |s|
  {
    if s != [] {
      var c := Comma(s).value;
      if c.rest != [] {
        JoinOfTokens(c.rest);
        var tr := Tokens(c.rest);
        assert Tokens(s) == [c.arg] + tr;
        assert Join(Tokens(s)) == c.arg + "," + Join(tr);
        if Join(tr) + "," == c.rest {
          assert Join(Tokens(s)) + "," == c.arg + "," + c.rest;
        }
      }
    }
  }

  // ---------------------------------------------------------------------
  // Running a specification

  function OrElse<T>(o: Option<T>, d: T): T
  {
    match o
    case Some(v) => v
    case None => d
  }

  /** What an Eval*Spec function reports: its verdict and the record it filled in. */
  datatype Eval<T> = Eval(ok: bool, spec: T)

  /** The Eval*Spec loop: cut off an argument, let step read it, go on with
    * the rest; stop with false when reComma fails or step does not
    * recognise an argument, keeping what was filled in so far. */
  function Fold<T>(s: string, acc: T, step: (string, T) -> Option<T>): Eval<T>
    decreases |s|
  {
    if s == [] then Eval(true, acc)
    else match Comma(s)
      case None => Eval(false, acc)
      case Some(c) =>
        match step(c.arg, acc)
        case None => Eval(false, acc)
        case Some(next) => Fold(c.rest, next, step)
  }

  /** The same over a list of arguments. */
  function Apply<T>(toks: seq<string>, acc: T, step: (string, T) -> Option<T>): Eval<T>
  {
    if toks == [] then Eval(true, acc)
    else match step(toks[0], acc)
      case None => Eval(false, acc)
      case Some(next) => Apply(toks[1..], next, step)
  }

  /** A specification is run argument by argument; one that spans lines
    * fails at once. */
  lemma {:induction false} FoldIsApply<T>(s: string, acc: T, step: (string, T) -> Option<T>)
    ensures Fold(s, acc, step) == if OneLine(s) then Apply(Tokens(s), acc, step) else Eval(false, acc)
    decreases |s|
  {
    if s != [] && OneLine(s) {
      var c := Comma(s).value;
      assert Tokens(s) == [c.arg] + Tokens(c.rest);
      match step(c.arg, acc)
      case None =>
      case Some(next) => FoldIsApply(c.rest, next, step);
    }
  }

  /** A property every step keeps holds of the record a specification
    * fills in. */
  lemma {:induction false} FoldKeeps<T>(s: string, acc: T, step: (string, T) -> Option<T>, inv: T -> bool)
    requires inv(acc)
    requires forall t, x :: inv(x) && step(t, x).Some? ==> inv(step(t, x).value)
    ensures inv(Fold(s, acc, step).spec)
    decreases |s|
  {
    if s != [] {
      match Comma(s)
      case None =>
      case Some(c) =>
        match step(c.arg, acc)
        case None =>
        case Some(next) => FoldKeeps(c.rest, next, step, inv);
    }
  }

  /** One more argument at the end is read after all the others. */
  lemma {:induction false} ApplySnoc<T>(toks: seq<string>, t: string, acc: T, step: (string, T) -> Option<T>)
    ensures Apply(toks + [t], acc, step) ==
      var e := Apply(toks, acc, step);
      if !e.ok then e
      else match step(t, e.spec)
        case None => Eval(false, e.spec)
        case Some(next) => Eval(true, next)
  {
    if toks == [] {
      assert [t][1..] == [];
    } else {
      assert (toks + [t])[1..] == toks[1..] + [t];
      match step(toks[0], acc)
      case None =>
      case Some(next) => ApplySnoc(toks[1..], t, next, step);
    }
  }

  /** When whether an argument is understood does not depend on what was
    * read before, a specification succeeds exactly when every argument is
    * understood. */
  lemma {:induction false} ApplyOk<T>(toks: seq<string>, acc: T, step: (string, T) -> Option<T>, known: string -> bool)
    requires forall t, x :: step(t, x).Some? == known(t)
    ensures Apply(toks, acc, step).ok <==> forall i :: 0 <= i < |toks| ==> known(toks[i])
  {
    if toks != [] {
      match step(toks[0], acc)
      case None =>
      case Some(next) =>
        ApplyOk(toks[1..], next, step, known);
        assert forall i :: 1 <= i < |toks| ==> toks[i] == toks[1..][i - 1];
    }
  }

  /** The value the last argument satisfying sets gives, or dflt. */
  function LastSet<U>(toks: seq<string>, sets: string -> bool, val: string -> U, dflt: U): U
  {
    if toks == [] then dflt
    else if sets(toks[|toks| - 1]) then val(toks[|toks| - 1])
    else LastSet(toks[..|toks| - 1], sets, val, dflt)
  }

  /** Later arguments override earlier ones: a field of the record is what
    * the last argument that sets it gives, or its default when none does. */
  lemma {:induction false} LaterTokensWin<T, U>(toks: seq<string>, acc: T, step: (string, T) -> Option<T>,
                                                proj: T -> U, sets: string -> bool, val: string -> U)
    requires forall t, x :: step(t, x).Some? && sets(t) ==> proj(step(t, x).value) == val(t)
    requires forall t, x :: step(t, x).Some? && !sets(t) ==> proj(step(t, x).value) == proj(x)
    ensures Apply(toks, acc, step).ok ==> proj(Apply(toks, acc, step).spec) == LastSet(toks, sets, val, proj(acc))
    decreases |toks|
  {
    if toks != [] {
      var init, last := toks[..|toks| - 1], toks[|toks| - 1];
      assert toks == init + [last];
      ApplySnoc(init, last, acc, step);
      LaterTokensWin(init, acc, step, proj, sets, val);
    }
  }
}
