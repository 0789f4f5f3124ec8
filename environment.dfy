/** Server start-up configuration (server.js): expansion of `${NAME}`
    references inside environment variables, and the precedence chains that
    choose the project directory, the port and the IP address. */
module Environment {
  import opened Js

  /** The process environment; a variable is set exactly when it is a key. */
  type Env = map<string, string>

  predicate IsLineTerminator(c: char)
  {
    c == '\n' || c == '\r' || c == '\U{2028}' || c == '\U{2029}'
  }

  /** The characters `.` matches in a regular expression without the `s` flag. */
  predicate Dot(c: char)
  {
    !IsLineTerminator(c)
  }

  /** `t` is one whole match of /\$\{.+?\}/: "${", one character `.` matches,
      further `.` characters none of which is '}', and the first '}' after them. */
  predicate IsReference(t: string)
  {
    && |t| >= 4
    && t[0] == '$' && t[1] == '{' && Dot(t[2]) && t[|t| - 1] == '}'
    && forall m :: 3 <= m < |t| - 1 ==> t[m] != '}' && Dot(t[m])
  }

  /** `s[j]` is a '}' reached from `k` by the lazy `.+?`: every character from
      `k` up to `j` is matched by `.` and none of them is '}'. */
  predicate Closes(s: string, k: nat, j: nat)
  {
    && k <= j < |s| && s[j] == '}'
    && forall m :: k <= m < j ==> s[m] != '}' && Dot(s[m])
  }

  /** Where the lazy `.+?` of the pattern stops when it reaches `k`. */
  function CloseBrace(s: string, k: nat): (r: Option<nat>)
    requires k <= |s|
    ensures forall j: nat :: Closes(s, k, j) <==> r == Some(j)
    decreases |s| - k
  {
    if k == |s| then None
    else if s[k] == '}' then Some(k)
    else if IsLineTerminator(s[k]) then None
    else CloseBrace(s, k + 1)
  }

  /** The length of the match of /\$\{.+?\}/ that starts at the beginning of
      `s`, if there is one. Exactly one prefix of `s` is a reference when this
      says so, and none otherwise. */
  function MatchLength(s: string): (r: Option<nat>)
    ensures forall n :: 0 <= n <= |s| ==> (IsReference(s[..n]) <==> r == Some(n))
    ensures r.Some? ==> 4 <= r.value <= |s|
  {
    if 3 <= |s| && s[0] == '$' && s[1] == '{' && Dot(s[2]) then
      assert forall n :: 4 <= n <= |s| ==> (IsReference(s[..n]) <==> Closes(s, 3, n - 1));
      match CloseBrace(s, 3)
      case Some(j) => Some(j + 1)
      case None => None
    else None
  }

  /** A string as the global replace sees it: characters it copies, and the
      matches it hands to the replacement callback. */
  datatype Piece = Text(c: char) | Reference(raw: string)

  /** How `replace` with the global flag walks the string: try a match at the
      current position; on success resume after it, otherwise copy one
      character and move on. */
  function Scan(s: string): (ps: seq<Piece>)
    ensures forall k :: 0 <= k < |ps| && ps[k].Reference? ==> IsReference(ps[k].raw)
    decreases |s|
  {
    if s == [] then []
    else
      match MatchLength(s)
      case Some(n) => [Reference(s[..n])] + Scan(s[n..])
      case None => [Text(s[0])] + Scan(s[1..])
  }

  /** The original text of a sequence of pieces. */
  function Flatten(ps: seq<Piece>): string
  {
    if ps == [] then []
    else PieceText(ps[0]) + Flatten(ps[1..])
  }

  /** The characters the class [{,},$] matches. */
  predicate IsCleaned(c: char)
  {
    c == '{' || c == '}' || c == '$' || c == ','
  }

  /** `p.replace(/[{,},$]/g, '')`: the variable name inside a reference. */
  function Clean(t: string): (r: string)
    ensures |r| <= |t|
    ensures forall k :: 0 <= k < |r| ==> !IsCleaned(r[k])
    ensures (forall k :: 0 <= k < |t| ==> !IsCleaned(t[k])) ==> r == t
  {
    if t == [] then []
    else (if IsCleaned(t[0]) then [] else [t[0]]) + Clean(t[1..])
  }

  /** `process.env[name]` as `replace` inserts it: an unset variable becomes
      the text "undefined". */
  function Lookup(env: Env, name: string): string
  {
    if name in env then env[name] else "undefined"
  }

  /** What a piece becomes: copied text, or the value of the referenced variable. */
  function Replacement(env: Env, p: Piece): string
  {
    match p case Text(c) => [c] case Reference(raw) => Lookup(env, Clean(raw))
  }

  function Render(env: Env, ps: seq<Piece>): string
  {
    if ps == [] then []
    else
    Replacement(env, ps[0]) + Render(env, ps[1..])
  }

  /** `s.replace(/\$\{.+?\}/g, callback)` with the callback of getenv. */
  function Expand(env: Env, s: string): string
  {
    Render(env, Scan(s))
  }

  /** getenv(name): undefined when the variable is unset, otherwise its value
      with each reference replaced once. */
  function GetEnv(env: Env, name: string): (r: Option<string>)
    ensures r.None? <==> name !in env
    ensures r.Some? ==> r.value == Expand(env, env[name])
  {
    if name in env then Some(Expand(env, env[name])) else None
  }

  function PieceText(p: Piece): string
  {
    match p case Text(c) => [c] case Reference(raw) => raw
  }

  lemma {:induction false} FlattenAppend(a: seq<Piece>, b: seq<Piece>)
    ensures Flatten(a + b) == Flatten(a) + Flatten(b)
  {
    if a == [] {
      assert a + b == b;
    } else {
      assert (a + b)[0] == a[0];
      assert (a + b)[1..] == a[1..] + b;
      FlattenAppend(a[1..], b);
      calc {
        Flatten(a + b);
        PieceText(a[0]) + Flatten(a[1..] + b);
        PieceText(a[0]) + (Flatten(a[1..]) + Flatten(b));
        (PieceText(a[0]) + Flatten(a[1..])) + Flatten(b);
      }
    }
  }

  lemma {:induction false} RenderAppend(env: Env, a: seq<Piece>, b: seq<Piece>)
    ensures Render(env, a + b) == Render(env, a) + Render(env, b)
  {
    if a == [] {
      assert a + b == b;
    } else {
      assert (a + b)[0] == a[0];
      assert (a + b)[1..] == a[1..] + b;
      RenderAppend(env, a[1..], b);
      calc {
        Render(env, a + b);
        Replacement(env, a[0]) + Render(env, a[1..] + b);
        Replacement(env, a[0]) + (Render(env, a[1..]) + Render(env, b));
        (Replacement(env, a[0]) + Render(env, a[1..])) + Render(env, b);
      }
    }
  }

  lemma {:induction false} CleanAppend(a: string, b: string)
    ensures Clean(a + b) == Clean(a) + Clean(b)
  {
    if a == [] {
      assert a + b == b;
    } else {
      assert (a + b)[0] == a[0];
      assert (a + b)[1..] == a[1..] + b;
      CleanAppend(a[1..], b);
      var h := if IsCleaned(a[0]) then [] else [a[0]];
      calc {
        Clean(a + b);
        h + Clean(a[1..] + b);
        h + (Clean(a[1..]) + Clean(b));
        (h + Clean(a[1..])) + Clean(b);
      }
    }
  }

  /** Scanning loses nothing: the copied text and the matches, in order, make up
      the whole input, so text outside the matches is preserved. */
  lemma {:induction false} ScanFlatten(s: string)
    ensures Flatten(Scan(s)) == s
    decreases |s|
  {
    if s != [] {
      match MatchLength(s)
      case Some(n) =>
        assert Scan(s) == [Reference(s[..n])] + Scan(s[n..]);
        ScanFlatten(s[n..]);
        FlattenStep(s, n, Reference(s[..n]));
      case None =>
        assert Scan(s) == [Text(s[0])] + Scan(s[1..]);
        ScanFlatten(s[1..]);
        FlattenStep(s, 1, Text(s[0]));
    }
  }

  lemma FlattenStep(s: string, n: nat, p: Piece)
    requires n <= |s| && PieceText(p) == s[..n]
    requires Scan(s) == [p] + Scan(s[n..]) && Flatten(Scan(s[n..])) == s[n..]
    ensures Flatten(Scan(s)) == s
  {
    FlattenAppend([p], Scan(s[n..]));
    assert Flatten([p]) == s[..n] + [];
    assert s[..n] + s[n..] == s;
  }

  /** A value in which "${" never occurs is returned unchanged. */
  lemma {:induction false} NoReferenceUnchanged(env: Env, s: string)
    requires forall k :: 0 <= k < |s| - 1 ==> !(s[k] == '$' && s[k + 1] == '{')
    ensures Expand(env, s) == s
    decreases |s|
  {
    if s != [] {
      assert MatchLength(s).None? by {
        if |s| >= 2 { assert !(s[0] == '$' && s[1] == '{'); }
      }
      NoReferenceUnchanged(env, s[1..]);
      RenderAppend(env, [Text(s[0])], Scan(s[1..]));
      assert [s[0]] + s[1..] == s;
    }
  }

  /** A name that a reference written as "${" + name + "}" stands for. */
  predicate PlainName(name: string)
  {
    name != [] && forall k :: 0 <= k < |name| ==> !IsCleaned(name[k]) && Dot(name[k])
  }

  /** A reference at the front is replaced by the variable's value verbatim,
      whatever that value contains, and scanning resumes right after the '}':
      the substituted text is never rescanned. */
  lemma ExpandReference(env: Env, name: string, rest: string)
    requires PlainName(name)
    ensures Expand(env, "${" + name + "}" + rest) == Lookup(env, name) + Expand(env, rest)
  {
    var r := "${" + name + "}";
    var s := r + rest;
    var n := |r|;
    ReferenceOfName(name);
    assert s[..n] == r;
    assert s[n..] == rest;
    assert MatchLength(s) == Some(n);
    assert Scan(s) == [Reference(r)] + Scan(rest);
    CleanOfName(name);
    assert Replacement(env, Reference(r)) == Lookup(env, name);
    RenderAppend(env, [Reference(r)], Scan(rest));
  }

  lemma ReferenceOfName(name: string)
    requires PlainName(name)
    ensures IsReference("${" + name + "}")
  {
    var r := "${" + name + "}";
    assert forall m :: 2 <= m < |r| - 1 ==> r[m] == name[m - 2];
  }

  /** Together with CleanAppend this fixes Clean: each character of the four
      is removed, and every other character is kept in place. */
  lemma CleanChar(c: char)
    ensures Clean([c]) == if IsCleaned(c) then [] else [c]
  {
    assert [c][1..] == [];
  }

  lemma CleanOfName(name: string)
    requires PlainName(name)
    ensures Clean("${" + name + "}") == name
  {
    CleanAppend("${", name + "}");
    CleanAppend(name, "}");
    assert "${" + name + "}" == "${" + (name + "}");
  }

  /** Expansion is single-pass: a variable whose value is a reference to
      another variable yields that variable's value verbatim (or "undefined"),
      even when that value contains references itself. */
  lemma NotRecursive(env: Env, c: string, a: string)
    requires c in env && PlainName(a) && env[c] == "${" + a + "}"
    ensures GetEnv(env, c) == Some(Lookup(env, a))
  {
    ExpandReference(env, a, "");
    assert "${" + a + "}" + "" == env[c];
    assert Expand(env, "") == "";
    assert Lookup(env, a) + "" == Lookup(env, a);
  }

  /** Where no match starts, the character is copied and the expansion goes on
      with the next one. */
  lemma ExpandText(env: Env, s: string)
    requires s != [] && MatchLength(s).None?
    ensures Expand(env, s) == [s[0]] + Expand(env, s[1..])
  {
    assert Scan(s) == [Text(s[0])] + Scan(s[1..]);
    RenderAppend(env, [Text(s[0])], Scan(s[1..]));
  }

  /** Where a match starts, it is replaced by the variable its cleaned text
      names, and the expansion goes on right after the match. */
  lemma ExpandMatch(env: Env, s: string)
    requires MatchLength(s).Some?
    ensures var n := MatchLength(s).value;
      Expand(env, s) == Lookup(env, Clean(s[..n])) + Expand(env, s[n..])
  {
    var n := MatchLength(s).value;
    assert Scan(s) == [Reference(s[..n])] + Scan(s[n..]);
    RenderAppend(env, [Reference(s[..n])], Scan(s[n..]));
  }

  /** A name the clean-up changes: `${a,b}` looks up `ab`. */
  lemma ExpandCleanedName(env: Env, s: string)
    requires s == "${a,b}"
    ensures Expand(env, s) == Lookup(env, "ab")
  {
    assert s[..6] == s && s[6..] == [];
    assert IsReference(s[..6]);
    ExpandMatch(env, s);
    CleanedName(s);
    assert Expand(env, []) == [];
    assert Lookup(env, "ab") + [] == Lookup(env, "ab");
  }

  /** The clean-up of `${a,b}` is `ab`. */
  lemma CleanedName(s: string)
    requires s == "${a,b}"
    ensures Clean(s) == "ab"
  {
    assert s[5..][1..] == [] && s[4..][1..] == s[5..] && s[3..][1..] == s[4..];
    assert s[2..][1..] == s[3..] && s[1..][1..] == s[2..];
    assert Clean(s[5..]) == [];
    assert Clean(s[4..]) == "b";
    assert Clean(s[3..]) == "b";
    assert Clean(s[2..]) == "ab";
    assert Clean(s[1..]) == "ab";
  }

  /** Text without '$' in front of any string is copied unchanged. */
  lemma {:induction false} ExpandPlainPrefix(env: Env, pre: string, s: string)
    requires forall k :: 0 <= k < |pre| ==> pre[k] != '$'
    ensures Expand(env, pre + s) == pre + Expand(env, s)
    decreases |pre|
  {
    if pre == [] {
      assert pre + s == s;
    } else {
      var t := pre + s;
      assert t[0] == pre[0] && t[1..] == pre[1..] + s;
      assert MatchLength(t).None?;
      ExpandText(env, t);
      ExpandPlainPrefix(env, pre[1..], s);
      assert Expand(env, t) == [pre[0]] + (pre[1..] + Expand(env, s));
      assert [pre[0]] + (pre[1..] + Expand(env, s)) == ([pre[0]] + pre[1..]) + Expand(env, s);
      assert [pre[0]] + pre[1..] == pre;
    }
  }

  /** One reference embedded in plain text is replaced, and the text around
      it is kept. */
  lemma EmbeddedReference(env: Env, pre: string, name: string, rest: string)
    requires forall k :: 0 <= k < |pre| ==> pre[k] != '$'
    requires PlainName(name)
    requires forall k :: 0 <= k < |rest| - 1 ==> !(rest[k] == '$' && rest[k + 1] == '{')
    ensures Expand(env, pre + ("${" + name + "}") + rest) == pre + Lookup(env, name) + rest
  {
    assert pre + ("${" + name + "}") + rest == pre + ("${" + name + "}" + rest);
    ExpandPlainPrefix(env, pre, "${" + name + "}" + rest);
    ExpandReference(env, name, rest);
    NoReferenceUnchanged(env, rest);
  }

  /** The example of the comment above getenv. */
  lemma DocumentedExample(env: Env)
    requires "some_env" in env
    ensures Expand(env, "I_have${some_env}/embedded/in/me") == "I_have" + env["some_env"] + "/embedded/in/me"
  {
    var pre, name, rest := "I_have", "some_env", "/embedded/in/me";
    assert pre + ("${" + name + "}") + rest == "I_have${some_env}/embedded/in/me";
    EmbeddedReference(env, pre, name, rest);
  }

  const ProjectDirVar := "VYTRONICS_PROJDIR"
  const PortVar := "VYTRONICS_NODEJS_PORT"
  const IpVar := "VYTRONICS_NODEJS_IP"

  /** The port is a string taken from the environment or the number 8000. */
  datatype Port = PortText(text: string) | PortNumber(number: nat)

  /** The start-up settings of server.js. `files` is the set of paths that
      `fs.existsSync` reports as existing. */
  method Configure(env: Env, files: set<string>) returns (projectDir: string, port: Port, ip: string)
    ensures TruthyText(GetEnv(env, ProjectDirVar)) ==> projectDir == GetEnv(env, ProjectDirVar).value
    ensures !TruthyText(GetEnv(env, ProjectDirVar)) && "./project/project.json" in files ==>
              projectDir == "./project"
    ensures !TruthyText(GetEnv(env, ProjectDirVar)) && "./project/project.json" !in files ==>
              projectDir == "./project_demo"
    ensures projectDir != []
    ensures TruthyText(GetEnv(env, PortVar)) ==> port == PortText(GetEnv(env, PortVar).value)
    ensures !TruthyText(GetEnv(env, PortVar)) && TruthyText(Get(env, "PORT")) ==>
              port == PortText(env["PORT"])
    ensures !TruthyText(GetEnv(env, PortVar)) && !TruthyText(Get(env, "PORT")) ==>
              port == PortNumber(8000)
    ensures TruthyText(GetEnv(env, IpVar)) ==> ip == GetEnv(env, IpVar).value
    ensures !TruthyText(GetEnv(env, IpVar)) && TruthyText(Get(env, "IP")) ==> ip == env["IP"]
    ensures !TruthyText(GetEnv(env, IpVar)) && !TruthyText(Get(env, "IP")) ==> ip == "127.0.0.1"
  {
    assert "./project" + "/project.json" == "./project/project.json";
    var dir := GetEnv(env, ProjectDirVar);
    if !TruthyText(dir) {
      dir := Some("./project");
      if dir.value + "/project.json" !in files {
        dir := Some("./project_demo");
      }
    }
    projectDir := dir.value;

    var p := GetEnv(env, PortVar);
    if TruthyText(p) {
      port := PortText(p.value);
    } else if TruthyText(Get(env, "PORT")) {
      port := PortText(env["PORT"]);
    } else {
      port := PortNumber(8000);
    }

    var a := GetEnv(env, IpVar);
    if TruthyText(a) {
      ip := a.value;
    } else if TruthyText(Get(env, "IP")) {
      ip := env["IP"];
    } else {
      ip := "127.0.0.1";
    }
  }

  /** `process.env.NAME` read without expansion. */
  function Get(env: Env, name: string): Option<string>
  {
    if name in env then Some(env[name]) else None
  }
}
