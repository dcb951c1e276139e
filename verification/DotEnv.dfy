/** The .env writer and reader. */
module DotEnv {
  import opened Seqs
  import opened Text

  type Env = map<string, string>

  // ---- reading ----

  datatype Setting = Setting(key: string, value: string)

  /** Every leftmost, non-overlapping occurrence. */
  function ReplaceAll(s: string, from: string, to: string): string
    requires from != ""
    decreases |s|
  {
    if HasPrefix(s, from) then to + ReplaceAll(s[|from|..], from, to)
    else if s == "" then ""
    else [s[0]] + ReplaceAll(s[1..], from, to)
  }

  const Backslash := "\\"
  const Quote := "\""

  function Unescape(inner: string): string {
    ReplaceAll(ReplaceAll(inner, Backslash + Quote, Quote), Backslash + Backslash, Backslash)
  }

  function Unquote(v: string): string {
    var n := |v|;
    if n >= 2 && v[0] == '"' && v[n - 1] == '"' then Unescape(v[1..n - 1])
    else if n >= 2 && v[0] == '\'' && v[n - 1] == '\'' then v[1..n - 1]
    else match Find(v, " #")
      case Some(i) => Trim(v[..i])
      case None => v
  }

  function ParseAssignment(line: string): Option<Setting> {
    match Find(line, "=")
    case None => None
    case Some(i) =>
      var k := Trim(line[..i]);
      if k == "" then None else Some(Setting(k, Unquote(Trim(line[i + 1..]))))
  }

  const Export := "export "

  function ParseLine(raw: string): Option<Setting> {
    var line := TrimReturns(raw);
    var trimmed := Trim(line);
    if trimmed == "" || HasPrefix(trimmed, "#") then None
    else ParseAssignment(if HasPrefix(trimmed, Export) then Trim(trimmed[|Export|..]) else line)
  }

  /** Later settings of a key win. */
  function Apply(settings: seq<Option<Setting>>, out: Env): Env {
    if settings == [] then out
    else Apply(settings[1..], match settings[0] case None => out case Some(s) => out[s.key := s.value])
  }

  function Parsed(content: string): Env {
    Apply(Map(ParseLine, Split(content, "\n")), map[])
  }

  lemma MapStep<T, U>(f: T -> U, xs: seq<T>, i: nat)
    requires i < |xs|
    ensures Map(f, xs[i..]) == [f(xs[i])] + Map(f, xs[i + 1..])
  {
  }

  method ParseDotEnv(content: string) returns (out: Env)
    ensures out == Parsed(content)
  {
    out := map[];
    var lines := Split(content, "\n");
    assert lines[0..] == lines;
    for i := 0 to |lines|
      invariant Apply(Map(ParseLine, lines[i..]), out) == Parsed(content)
    {
      MapStep(ParseLine, lines, i);
      var setting := ParseLine(lines[i]);
      if setting.Some? {
        out := out[setting.value.key := setting.value.value];
      }
    }
  }

  // ---- writing ----

  predicate NeedsQuotes(v: string) {
    exists c :: c in v && (c in " \t\n\r\"'#" || c == '=')
  }

  function Quoted(v: string): string {
    if v == "" then ""
    else if NeedsQuotes(v) then
      Quote + ReplaceAll(ReplaceAll(v, Backslash, Backslash + Backslash), Quote, Backslash + Quote) + Quote
    else v
  }

  const Header := "# Written by" + " CronCompose" + " deploy — do" + " not edit" + " during a run"

  function Line(env: Env, k: string): string {
    k + "=" + Quoted(if k in env then env[k] else "")
  }

  function Body(env: Env, keys: seq<string>): string {
    if keys == [] then "" else Line(env, keys[0]) + "\n" + Body(env, keys[1..])
  }

  /** What is on disk after writing to a fresh place: nothing when there is no key to write. */
  function Written(env: Env, keys: seq<string>): Option<string> {
    if keys == [] then None else Some(Header + "\n" + Body(env, keys))
  }

  function ReadBack(file: Option<string>): Env {
    match file
    case None => map[]
    case Some(content) => Parsed(content)
  }

  /** The keys the writer goes through: the trimmed nonempty ones, in some order. */
  ghost predicate Lists(keys: seq<string>, env: Env) {
    && (forall raw :: raw in env && Trim(raw) != "" ==> Trim(raw) in keys)
    && (forall k :: k in keys ==> k != "" && exists raw :: raw in env && Trim(raw) == k)
  }
}
