/** Reading back what the .env writer wrote. */
module DotEnvTrip {
  import opened Seqs
  import opened Text
  import opened DotEnv

  // ---- the two-pass unescape ----

  lemma {:induction false} QuotePass(s: string)
    ensures ReplaceAll(ReplaceAll(s, Quote, Backslash + Quote), Backslash + Quote, Quote) == s
    decreases |s|
  {
    if s == "" {
    } else {
      QuotePass(s[1..]);
      var t := ReplaceAll(s[1..], Quote, Backslash + Quote);
      if s[0] == '"' {
        assert HasPrefix(s, Quote) && s == Quote + s[1..];
        var u := Backslash + Quote + t;
        assert HasPrefix(u, Backslash + Quote) && u[2..] == t;
      } else {
        assert !HasPrefix(s, Quote);
        var u := [s[0]] + t;
        FirstEscaped(s[1..]);
        assert (Backslash + Quote)[1] == '"' && (|u| >= 2 ==> u[1] == t[0]);
        assert u[1..] == t && s == [s[0]] + s[1..];
      }
    }
  }

  lemma FirstEscaped(s: string)
    ensures var t := ReplaceAll(s, Quote, Backslash + Quote); t != "" ==> t[0] != '"'
  {
    if s != "" && s[0] != '"' {
      assert !HasPrefix(s, Quote);
    }
  }

  lemma {:induction false} BackslashPass(s: string)
    ensures ReplaceAll(ReplaceAll(s, Backslash, Backslash + Backslash), Backslash + Backslash, Backslash) == s
    decreases |s|
  {
    if s == "" {
    } else {
      BackslashPass(s[1..]);
      var t := ReplaceAll(s[1..], Backslash, Backslash + Backslash);
      assert s == [s[0]] + s[1..];
      if s[0] == '\\' {
        assert HasPrefix(s, Backslash);
        var u := Backslash + Backslash + t;
        assert HasPrefix(u, Backslash + Backslash) && u[2..] == t;
      } else {
        assert !HasPrefix(s, Backslash);
        var u := [s[0]] + t;
        assert u[0] != '\\' && u[1..] == t;
      }
    }
  }

  /** The two sequential passes invert the escaping, for every string. */
  lemma UnescapeInverts(v: string)
    ensures Unescape(ReplaceAll(ReplaceAll(v, Backslash, Backslash + Backslash), Quote, Backslash + Quote)) == v
  {
    QuotePass(ReplaceAll(v, Backslash, Backslash + Backslash));
    BackslashPass(v);
  }

  // ---- values ----

  /** Escaping only adds backslashes. */
  lemma {:induction false} EscapeAddsNothing(s: string, from: char, c: char)
    requires c != '\\' && from in "\\\""
    ensures c in ReplaceAll(s, [from], Backslash + [from]) <==> c in s
    decreases |s|
  {
    if s == "" {
    } else {
      EscapeAddsNothing(s[1..], from, c);
      assert s == [s[0]] + s[1..];
      assert HasPrefix(s, [from]) <==> s[0] == from;
    }
  }

  /** A value the round trip keeps: no newline, and no white space at the ends that would go unquoted. */
  predicate GoodValue(v: string) {
    '\n' !in v && (NeedsQuotes(v) || Trimmed(v))
  }

  lemma QuotedShape(v: string)
    requires '\n' !in v
    ensures '\n' !in Quoted(v)
    ensures Quoted(v) != "" ==> Quoted(v)[|Quoted(v)| - 1] != '\r'
  {
    if v != "" && NeedsQuotes(v) {
      var once := ReplaceAll(v, Backslash, Backslash + Backslash);
      EscapeAddsNothing(v, '\\', '\n');
      EscapeAddsNothing(once, '"', '\n');
    } else if v != "" {
      assert v[|v| - 1] in v;
      PlainChars(v);
    }
  }

  lemma NoSpaceNoComment(t: string)
    requires ' ' !in t
    ensures Find(t, " #").None?
  {
    forall i: int ensures !At(t, i, " #") {
      if 0 <= i <= |t| - 2 {
        assert t[i..i + 2][0] == t[i];
      }
    }
  }

  lemma UnquotePlain(t: string)
    requires '"' !in t && '\'' !in t && ' ' !in t
    ensures Unquote(t) == t
  {
    NoSpaceNoComment(t);
  }

  lemma UnquoteBetween(q: string)
    requires |q| >= 2 && q[0] == '"' && q[|q| - 1] == '"'
    ensures Unquote(Trim(q)) == Unescape(q[1..|q| - 1])
  {
    TrimOfTrimmed(q);
  }

  lemma UnquoteWrapped(esc: string)
    ensures Unquote(Trim(Quote + esc + Quote)) == Unescape(esc)
  {
    var q := Quote + esc + Quote;
    UnquoteBetween(q);
    assert q[1..|q| - 1] == esc;
  }

  lemma PlainChars(v: string)
    requires !NeedsQuotes(v)
    ensures '"' !in v && '\'' !in v && ' ' !in v && '\r' !in v
  {
    var special := " \t\n\r\"'#";
    assert special[0] == ' ' && special[3] == '\r' && special[4] == '"' && special[5] == '\'';
  }

  /** Reading a value back gives it trimmed when it went unquoted and exactly when it was quoted. */
  lemma UnquoteOfQuoted(v: string)
    ensures Unquote(Trim(Quoted(v))) == if NeedsQuotes(v) then v else Trim(v)
  {
    if v == "" {
    } else if NeedsQuotes(v) {
      UnquoteWrapped(ReplaceAll(ReplaceAll(v, Backslash, Backslash + Backslash), Quote, Backslash + Quote));
      UnescapeInverts(v);
    } else {
      PlainChars(v);
      UnquotePlain(Trim(v));
    }
  }

  // ---- keys ----

  /** A key that stays on its line and in front of the first '='. */
  predicate CleanKey(k: string) {
    k != "" && Trimmed(k) && '=' !in k && '\n' !in k
  }

  predicate GoodKey(k: string) {
    CleanKey(k) && !HasPrefix(k, "#") && !HasPrefix(k, Export)
  }

  lemma TrimChars(s: string, c: char)
    requires c !in s
    ensures c !in Trim(s)
  {
  }

  lemma ParseAssignmentShape(line: string)
    requires '\n' !in line
    ensures var r := ParseAssignment(line); r.Some? ==> CleanKey(r.value.key) && '\n' !in r.value.value
  {
    FindChar(line, '=');
    if Find(line, "=").Some? {
      var i := Find(line, "=").value;
      TrimChars(line[..i], '=');
      TrimChars(line[..i], '\n');
      TrimChars(line[i + 1..], '\n');
      UnquoteShape(Trim(line[i + 1..]));
    }
  }

  lemma {:induction false} ReplaceAllChars(s: string, from: string, to: string, c: char)
    requires from != "" && c !in s && c !in to
    ensures c !in ReplaceAll(s, from, to)
    decreases |s|
  {
    if HasPrefix(s, from) {
      ReplaceAllChars(s[|from|..], from, to, c);
    } else if s == "" {
    } else {
      ReplaceAllChars(s[1..], from, to, c);
    }
  }

  lemma UnquoteShape(v: string)
    requires '\n' !in v
    ensures '\n' !in Unquote(v)
  {
    var n := |v|;
    if n >= 2 && v[0] == '"' && v[n - 1] == '"' {
      var inner := v[1..n - 1];
      ReplaceAllChars(inner, Backslash + Quote, Quote, '\n');
      ReplaceAllChars(ReplaceAll(inner, Backslash + Quote, Quote), Backslash + Backslash, Backslash, '\n');
    }
  }

  /** Whatever the line, a key it sets is clean and its value has no newline. */
  lemma ParseLineShape(raw: string)
    requires '\n' !in raw
    ensures var r := ParseLine(raw); r.Some? ==> CleanKey(r.value.key) && '\n' !in r.value.value
  {
    var line := TrimReturns(raw);
    var trimmed := Trim(line);
    TrimChars(line, '\n');
    if HasPrefix(trimmed, Export) {
      TrimChars(trimmed[|Export|..], '\n');
      ParseAssignmentShape(Trim(trimmed[|Export|..]));
    } else {
      ParseAssignmentShape(line);
    }
  }

  lemma ParseAssignmentOf(k: string, q: string)
    requires '=' !in k
    ensures ParseAssignment(k + "=" + q) == if Trim(k) == "" then None else Some(Setting(Trim(k), Unquote(Trim(q))))
  {
    FindFirst(k, '=', q);
    var line := k + "=" + q;
    assert line[..|k|] == k && line[|k| + 1..] == q;
  }

  /** How a written line reads, for a clean key: `#` hides it, `export ` is stripped (ExportSetsShorter). */
  lemma ParseWrittenLine(k: string, v: string)
    requires CleanKey(k) && '\n' !in v && !HasPrefix(k, Export)
    ensures ParseLine(k + "=" + Quoted(v)) ==
            if HasPrefix(k, "#") then None else Some(Setting(k, Unquote(Trim(Quoted(v)))))
  {
    var q := Quoted(v);
    var line := k + "=" + q;
    LineEnd(k, v);
    TrimKeepsFront(k, q);
    ParseLineCases(line);
    TrimOfTrimmed(k);
    ParseAssignmentOf(k, q);
  }

  lemma LineEnd(k: string, v: string)
    requires '\n' !in v
    ensures var line := k + "=" + Quoted(v); line[|line| - 1] != '\r'
  {
    QuotedShape(v);
    var line := k + "=" + Quoted(v);
    assert line[|line| - 1] == if Quoted(v) == "" then '=' else Quoted(v)[|Quoted(v)| - 1];
  }

  lemma ParseLineCases(line: string)
    requires line != "" && line[|line| - 1] != '\r' && Trim(line) != ""
    ensures ParseLine(line) ==
      if HasPrefix(Trim(line), "#") then None
      else ParseAssignment(if HasPrefix(Trim(line), Export) then Trim(Trim(line)[|Export|..]) else line)
  {
  }

  /** Trimming a line that starts with a clean key leaves the key and the '=' in place. */
  lemma TrimKeepsFront(k: string, q: string)
    requires CleanKey(k)
    ensures var t := Trim(k + "=" + q);
      && k + "=" <= t
      && (HasPrefix(t, "#") <==> HasPrefix(k, "#")) && (HasPrefix(t, Export) <==> HasPrefix(k, Export))
  {
    var line := k + "=" + q;
    assert line[0] == k[0];
    assert TrimLeft(line) == line;
    var t := TrimRight(line);
    assert t == line[..|t|];
    assert |t| > |k| by {
      assert line[|k|] == '=';
    }
    assert t[|k|] == '=' && t[..|k|] == k;
    assert forall i :: 0 <= i < |Export| ==> Export[i] != '=';
  }

  /** An exporting key sets a shorter one. */
  lemma ExportSetsShorter(k: string, v: string)
    requires CleanKey(k) && HasPrefix(k, Export) && '\n' !in v
    ensures var r := ParseLine(k + "=" + Quoted(v)); r.Some? ==> |r.value.key| < |k|
  {
    var line := k + "=" + Quoted(v);
    LineEnd(k, v);
    TrimKeepsFront(k, Quoted(v));
    ExportCase(line, Trim(line));
    ExportRest(k, Trim(line));
  }

  lemma ExportRest(k: string, t: string)
    requires CleanKey(k) && HasPrefix(k, Export) && k + "=" <= t
    ensures var r := ParseAssignment(Trim(t[|Export|..])); r.Some? ==> |r.value.key| < |k|
  {
    var u := t[|Export|..];
    var r := Trim(u);
    FindChar(r, '=');
    if Find(r, "=").Some? {
      var i := Find(r, "=").value;
      assert (k + "=")[|k|] == '=';
      FirstInTrim(u, |k| - |Export|, i);
    }
  }

  lemma ExportCase(line: string, t: string)
    requires line != "" && line[|line| - 1] != '\r' && Trim(line) == t != ""
    requires HasPrefix(t, Export)
    ensures ParseLine(line) == ParseAssignment(Trim(t[|Export|..]))
  {
    ParseLineCases(line);
    assert t[0] == Export[0];
  }

  /** The first '=' of a trimmed text is no further in than it was. */
  lemma FirstInTrim(u: string, at: nat, i: nat)
    requires at < |u| && u[at] == '=' && i < |Trim(u)| && '=' !in Trim(u)[..i]
    ensures i <= at
  {
    var l := TrimLeft(u);
    var skipped := |u| - |l|;
    assert skipped <= at && l[at - skipped] == '=';
    var t := Trim(u);
    forall j | 0 <= j < i ensures l[j] != '=' {
      assert t[..i][j] == l[j];
    }
  }

  // ---- what people write by hand ----

  /** Between single quotes everything is taken as it stands. */
  lemma SingleQuoted(x: string)
    ensures Unquote("'" + x + "'") == x
  {
    var v := "'" + x + "'";
    assert v[0] == '\'' && v[|v| - 1] == '\'' && v[1..|v| - 1] == x;
  }

  /** Between double quotes the escapes are undone. */
  lemma DoubleQuoted(x: string)
    ensures Unquote("\"" + x + "\"") == Unescape(x)
  {
    var v := "\"" + x + "\"";
    assert v[0] == '"' && v[|v| - 1] == '"' && v[1..|v| - 1] == x;
  }

  /** Not between quotes of one kind. */
  predicate Bare(v: string) {
    |v| < 2 || v[0] != v[|v| - 1] || (v[0] != '"' && v[0] != '\'')
  }

  /** Any other value ends where a blank and a # first follow each other, trimmed, or is taken as it stands. */
  lemma BareValue(v: string)
    requires Bare(v)
    ensures match Find(v, " #")
            case None => Unquote(v) == v
            case Some(i) => Unquote(v) == Trim(v[..i])
  {
  }

  /** A value is written between quotes exactly if it holds one of these characters. */
  lemma QuotedIf(v: string)
    ensures NeedsQuotes(v) <==>
            exists i :: 0 <= i < |v| &&
              (v[i] == ' ' || v[i] == '\t' || v[i] == '\n' || v[i] == '\r' || v[i] == '"' || v[i] == '\'' ||
               v[i] == '#' || v[i] == '=')
    ensures !NeedsQuotes(v) ==> Quoted(v) == v
    ensures NeedsQuotes(v) ==> |Quoted(v)| >= |v| + 2 && Quoted(v)[0] == '"' && Quoted(v)[|Quoted(v)| - 1] == '"'
  {
    var special := " \t\n\r\"'#";
    assert |special| == 7 && special[0] == ' ' && special[1] == '\t' && special[2] == '\n' && special[3] == '\r' &&
           special[4] == '"' && special[5] == '\'' && special[6] == '#';
    if i :| 0 <= i < |v| && (v[i] in special || v[i] == '=') {
      assert v[i] in v;
    }
    QuotedLonger(v);
  }

  lemma {:induction false} EscapeGrows(s: string, from: char, to: string)
    requires to != ""
    ensures |ReplaceAll(s, [from], to)| >= |s|
  {
    if s == "" {
    } else {
      assert HasPrefix(s, [from]) <==> s[0] == from;
      EscapeGrows(s[1..], from, to);
    }
  }

  lemma QuotedLonger(v: string)
    ensures NeedsQuotes(v) ==> |Quoted(v)| >= |v| + 2 && Quoted(v)[0] == '"' && Quoted(v)[|Quoted(v)| - 1] == '"'
  {
    var once := ReplaceAll(v, Backslash, Backslash + Backslash);
    EscapeGrows(v, '\\', Backslash + Backslash);
    EscapeGrows(once, '"', Backslash + Quote);
  }
}
