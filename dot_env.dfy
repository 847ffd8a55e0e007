/** `update_env_tokens`, shared in substance by `AuthValuai` and `AuthManager`: the `.env`
    file is rewritten so that every line except the two token lines survives (stripped,
    in order) and the two token lines come last; the process environment gets both
    tokens. File contents are strings as Python sees them after newline translation. */
module DotEnv {
  import opened Wrappers
  import opened Exceptions
  import opened Text

  const AccessKey: string := "VALUEAI_ACCESS_TOKEN"
  const RefreshKey: string := "VALUEAI_REFRESH_TOKEN"

  /** The keys a token response must carry. */
  const AuthorizationField: string := "authorization_token"
  const RefreshField: string := "refresh_token"

  predicate HasTokens(tokens: map<string, string>)
  {
    AuthorizationField in tokens && RefreshField in tokens
  }

  /** A line that the rewrite drops: stripped, it starts with `KEY=` for one of the two keys. */
  predicate IsTokenLine(line: string)
  {
    var s := Strip(line);
    StartsWith(s, AccessKey + "=") || StartsWith(s, RefreshKey + "=")
  }

  /** The `new_lines` list built from the lines of the old file. */
  function Retained(lines: seq<string>): seq<string>
  {
    if lines == [] then []
    else
      var last := lines[|lines| - 1];
      Retained(lines[..|lines| - 1]) + (if IsTokenLine(last) then [] else [Strip(last)])
  }

  /** The length of the first line of `s`, its newline included. */
  function LineLength(s: string): (n: nat)
    requires |s| > 0
    ensures 1 <= n <= |s|
  {
    if s[0] == '\n' || |s| == 1 then 1 else 1 + LineLength(s[1..])
  }

  /** Python's `f.readlines()`: every line keeps its newline; the last may have none. */
  function ReadLines(s: string): seq<string>
    decreases |s|
  {
    if s == [] then [] else [s[..LineLength(s)]] + ReadLines(s[LineLength(s)..])
  }

  /** The lines `ls` written one after the other. */
  function Concat(ls: seq<string>): string
  {
    if ls == [] then "" else ls[0] + Concat(ls[1..])
  }

  /** `readlines()` loses nothing: its lines, put back together, are the file. */
  lemma {:induction false} ReadLinesConcat(s: string)
    ensures Concat(ReadLines(s)) == s
    decreases |s|
  {
    if s != [] {
      var n := LineLength(s);
      ReadLinesConcat(s[n..]);
      assert s == s[..n] + s[n..];
    }
  }

  /** Python's `sep.join(ls)`. */
  function Join(ls: seq<string>, sep: string): string
  {
    if |ls| == 0 then "" else if |ls| == 1 then ls[0] else ls[0] + sep + Join(ls[1..], sep)
  }

  /** The lines `ls`, each followed by a newline. */
  function Unlines(ls: seq<string>): string
  {
    if ls == [] then "" else ls[0] + "\n" + Unlines(ls[1..])
  }

  /** The lines `ls` as `readlines()` returns them: each with its newline. */
  function Terminated(ls: seq<string>): seq<string>
  {
    if ls == [] then [] else [ls[0] + "\n"] + Terminated(ls[1..])
  }

  function AccessLine(access: string): string
  {
    AccessKey + "=" + access
  }

  function RefreshLine(refresh: string): string
  {
    RefreshKey + "=" + refresh
  }

  /** What is written: the retained lines joined by newlines, a newline when any were retained,
      then the access line and the refresh line, each ending in a newline. */
  function Rendered(kept: seq<string>, access: string, refresh: string): string
  {
    (if |kept| > 0 then Join(kept, "\n") + "\n" else "")
    + AccessLine(access) + "\n" + RefreshLine(refresh) + "\n"
  }

  /** The old file's lines; a missing file has none. */
  function Existing(file: Option<string>): seq<string>
  {
    if file.Some? then ReadLines(file.value) else []
  }

  /** The new contents of `.env`. */
  function Rewritten(file: Option<string>, access: string, refresh: string): string
  {
    Rendered(Retained(Existing(file)), access, refresh)
  }

  /** The process environment and the `.env` file. */
  datatype EnvState = EnvState(environ: map<string, string>, dotEnv: Option<string>)

  /** What `update_env_tokens(tokens)` does to the environment and the file, or the ValueError
      it raises, before touching either, when a token key is missing. */
  function EnvUpdate(e: EnvState, tokens: map<string, string>): (r: Result<EnvState, Exc>)
    ensures r.Ok? <==> HasTokens(tokens)
    ensures r.Err? ==> r.error == ValueError
    ensures r.Ok? ==> r.value.environ.Keys == e.environ.Keys + {AccessKey, RefreshKey}
    ensures r.Ok? ==> r.value.environ[AccessKey] == tokens[AuthorizationField] && r.value.environ[RefreshKey] == tokens[RefreshField]
    ensures r.Ok? ==> forall k :: k in e.environ && k != AccessKey && k != RefreshKey ==> r.value.environ[k] == e.environ[k]
    ensures r.Ok? ==> r.value.dotEnv.Some?
  {
    if !HasTokens(tokens) then Err(ValueError)
    else
      var access := tokens[AuthorizationField];
      var refresh := tokens[RefreshField];
      Ok(EnvState(e.environ[AccessKey := access][RefreshKey := refresh],
                  Some(Rewritten(e.dotEnv, access, refresh))))
  }

  /** The loop of `update_env_tokens` that drops the token lines and strips the others. */
  method FilterLines(existing: seq<string>) returns (newLines: seq<string>)
    ensures newLines == Retained(existing)
  {
    newLines := [];
    var i := 0;
    while i < |existing|
      invariant 0 <= i <= |existing|
      invariant newLines == Retained(existing[..i])
    {
      var line := existing[i];
      assert existing[..i + 1][..i] == existing[..i];
      if !IsTokenLine(line) {
        newLines := newLines + [Strip(line)];
      }
      i := i + 1;
    }
    assert existing[..i] == existing;
  }

  /** How `update_env_tokens` assembles the new file: the kept lines joined by newlines, a
      newline unless the last kept line already ends in one, then the two token lines. */
  method RenderFile(newLines: seq<string>, access: string, refresh: string) returns (content: string)
    requires |newLines| > 0 ==> IsStripped(newLines[|newLines| - 1])
    ensures content == Rendered(newLines, access, refresh)
  {
    var needsNewline := |newLines| > 0 && !EndsWith(newLines[|newLines| - 1], "\n");
    if |newLines| > 0 {
      StrippedNoNewline(newLines[|newLines| - 1]);
    }
    content := "";
    if |newLines| > 0 {
      content := Join(newLines, "\n");
    }
    if needsNewline {
      content := content + "\n";
    }
    ghost var head := content;
    assert head == if |newLines| > 0 then Join(newLines, "\n") + "\n" else "";
    content := content + AccessKey + "=" + access + "\n";
    assert content == head + AccessLine(access) + "\n";
    content := content + RefreshKey + "=" + refresh + "\n";
    assert content == head + AccessLine(access) + "\n" + RefreshLine(refresh) + "\n";
  }

  class Process {
    var environ: map<string, string>
    var dotEnv: Option<string>

    constructor (environ: map<string, string>, dotEnv: Option<string>)
      ensures this.environ == environ && this.dotEnv == dotEnv
    {
      this.environ := environ;
      this.dotEnv := dotEnv;
    }

    function State(): EnvState
      reads this
    {
      EnvState(environ, dotEnv)
    }

    /** `update_env_tokens`: checks the keys, filters the old lines, writes the file and
        updates `os.environ`. */
    method UpdateEnvTokens(tokens: map<string, string>) returns (r: Result<(), Exc>)
      modifies this
      ensures r.Ok? <==> HasTokens(tokens)
      ensures r.Err? ==> r.error == ValueError && environ == old(environ) && dotEnv == old(dotEnv)
      ensures r.Ok? ==> EnvUpdate(old(State()), tokens) == Ok(State())
      ensures r.Ok? ==> environ[AccessKey] == tokens[AuthorizationField] && environ[RefreshKey] == tokens[RefreshField]
    {
      if !HasTokens(tokens) {
        return Err(ValueError);
      }
      var access := tokens[AuthorizationField];
      var refresh := tokens[RefreshField];
      var existing := if dotEnv.Some? then ReadLines(dotEnv.value) else [];
      var newLines := FilterLines(existing);
      RetainedStripped(existing);
      if |newLines| > 0 {
        assert newLines[|newLines| - 1] in newLines;
      }
      var content := RenderFile(newLines, access, refresh);
      dotEnv := Some(content);
      environ := environ[AccessKey := access][RefreshKey := refresh];
      r := Ok(());
    }
  }

  lemma {:induction false} RetainedAppend(xs: seq<string>, ys: seq<string>)
    ensures Retained(xs + ys) == Retained(xs) + Retained(ys)
    decreases |ys|
  {
    if ys == [] {
      assert xs + ys == xs;
    } else {
      var ys' := ys[..|ys| - 1];
      assert (xs + ys)[..|xs + ys| - 1] == xs + ys';
      assert (xs + ys)[|xs + ys| - 1] == ys[|ys| - 1];
      RetainedAppend(xs, ys');
    }
  }

  /** Every retained line is stripped and is not a token line. */
  lemma {:induction false} RetainedStripped(lines: seq<string>)
    ensures forall x :: x in Retained(lines) ==> IsStripped(x) && !IsTokenLine(x)
  {
    if lines != [] {
      var last := lines[|lines| - 1];
      RetainedStripped(lines[..|lines| - 1]);
      StripIdempotent(last);
      StripIsStripped(last);
    }
  }

  /** The retained lines are exactly the stripped forms of the lines that are not token lines. */
  lemma {:induction false} RetainedMembers(lines: seq<string>)
    ensures forall i :: 0 <= i < |lines| && !IsTokenLine(lines[i]) ==> Strip(lines[i]) in Retained(lines)
    ensures forall x :: x in Retained(lines) ==>
              exists i :: 0 <= i < |lines| && !IsTokenLine(lines[i]) && x == Strip(lines[i])
  {
    if lines != [] {
      var init := lines[..|lines| - 1];
      RetainedMembers(init);
      forall x | x in Retained(lines)
        ensures exists i :: 0 <= i < |lines| && !IsTokenLine(lines[i]) && x == Strip(lines[i])
      {
        if x in Retained(init) {
          var i :| 0 <= i < |init| && !IsTokenLine(init[i]) && x == Strip(init[i]);
          assert lines[i] == init[i];
        } else {
          assert x == Strip(lines[|lines| - 1]);
        }
      }
      forall i | 0 <= i < |lines| && !IsTokenLine(lines[i])
        ensures Strip(lines[i]) in Retained(lines)
      {
        if i < |lines| - 1 {
          assert lines[i] == init[i];
        }
      }
    }
  }

  lemma {:induction false} LineLengthOf(l: string, rest: string)
    requires '\n' !in l
    ensures LineLength(l + "\n" + rest) == |l| + 1
  {
    var s := l + "\n" + rest;
    if l != [] {
      assert s[0] == l[0];
      assert s[1..] == l[1..] + "\n" + rest;
      LineLengthOf(l[1..], rest);
    }
  }

  lemma {:induction false} ReadUnlines(ls: seq<string>)
    requires forall i :: 0 <= i < |ls| ==> '\n' !in ls[i]
    ensures ReadLines(Unlines(ls)) == Terminated(ls)
  {
    if ls != [] {
      var rest := Unlines(ls[1..]);
      var s := Unlines(ls);
      assert s == ls[0] + "\n" + rest;
      LineLengthOf(ls[0], rest);
      assert s[..|ls[0]| + 1] == ls[0] + "\n";
      assert s[|ls[0]| + 1..] == rest;
      ReadUnlines(ls[1..]);
    }
  }

  lemma {:induction false} UnlinesAppend(xs: seq<string>, ys: seq<string>)
    ensures Unlines(xs + ys) == Unlines(xs) + Unlines(ys)
  {
    if xs != [] {
      assert (xs + ys)[0] == xs[0];
      assert (xs + ys)[1..] == xs[1..] + ys;
      UnlinesAppend(xs[1..], ys);
    } else {
      assert xs + ys == ys;
    }
  }

  lemma {:induction false} TerminatedAppend(xs: seq<string>, ys: seq<string>)
    ensures Terminated(xs + ys) == Terminated(xs) + Terminated(ys)
  {
    if xs != [] {
      assert (xs + ys)[0] == xs[0];
      assert (xs + ys)[1..] == xs[1..] + ys;
      TerminatedAppend(xs[1..], ys);
    } else {
      assert xs + ys == ys;
    }
  }

  lemma {:induction false} JoinUnlines(ls: seq<string>)
    requires |ls| > 0
    ensures Join(ls, "\n") + "\n" == Unlines(ls)
  {
    if |ls| > 1 {
      JoinUnlines(ls[1..]);
    }
  }

  /** The written file is the retained lines and the two token lines, each ending in a newline. */
  lemma RenderedUnlines(kept: seq<string>, access: string, refresh: string)
    ensures Rendered(kept, access, refresh) == Unlines(kept + [AccessLine(access), RefreshLine(refresh)])
  {
    var tail := [AccessLine(access), RefreshLine(refresh)];
    UnlinesAppend(kept, tail);
    assert tail[1..] == [RefreshLine(refresh)] && tail[1..][1..] == [];
    assert Unlines(tail[1..]) == RefreshLine(refresh) + "\n" + "";
    assert Unlines(tail) == AccessLine(access) + "\n" + (RefreshLine(refresh) + "\n" + "");
    if |kept| > 0 {
      JoinUnlines(kept);
    }
  }

  /** Stripping keeps a prefix that begins and ends with non-whitespace. */
  lemma {:induction false} TrimRightKeepsPrefix(p: string, s: string)
    requires |p| > 0 && !IsSpace(p[|p| - 1]) && p <= s
    ensures p <= TrimRight(s)
  {
    if |s| > 0 && IsSpace(s[|s| - 1]) {
      assert |s| > |p|;
      assert p <= s[..|s| - 1];
      TrimRightKeepsPrefix(p, s[..|s| - 1]);
    }
  }

  lemma StripKeepsPrefix(p: string, s: string)
    requires |p| > 0 && !IsSpace(p[0]) && !IsSpace(p[|p| - 1]) && p <= s
    ensures p <= Strip(s)
  {
    assert s[0] == p[0];
    assert TrimLeft(s) == s;
    TrimRightKeepsPrefix(p, s);
  }

  /** The two token lines the rewrite writes are dropped by the next rewrite. */
  lemma TokenLinesAreDropped(access: string, refresh: string)
    ensures IsTokenLine(AccessLine(access) + "\n")
    ensures IsTokenLine(RefreshLine(refresh) + "\n")
  {
    var pa := AccessKey + "=";
    var pr := RefreshKey + "=";
    assert AccessLine(access) + "\n" == pa + (access + "\n");
    assert RefreshLine(refresh) + "\n" == pr + (refresh + "\n");
    StripKeepsPrefix(pa, AccessLine(access) + "\n");
    StripKeepsPrefix(pr, RefreshLine(refresh) + "\n");
  }

  lemma {:induction false} RetainedTerminated(kept: seq<string>)
    requires forall i :: 0 <= i < |kept| ==> IsStripped(kept[i]) && !IsTokenLine(kept[i])
    ensures Retained(Terminated(kept)) == kept
  {
    if kept != [] {
      var k := kept[0];
      StripLine(k);
      StrippedIsFixpoint(k);
      assert Retained([k + "\n"]) == Retained([]) + [k];
      RetainedAppend([k + "\n"], Terminated(kept[1..]));
      RetainedTerminated(kept[1..]);
    }
  }

  /** Every line `readlines()` returns is non-empty and has a newline at most at its end. */
  lemma {:induction false} ReadLinesShape(s: string)
    ensures forall i :: 0 <= i < |ReadLines(s)| ==>
              |ReadLines(s)[i]| > 0 && '\n' !in ReadLines(s)[i][..|ReadLines(s)[i]| - 1]
    decreases |s|
  {
    if s != [] {
      var n := LineLength(s);
      FirstLineShape(s);
      ReadLinesShape(s[n..]);
    }
  }

  lemma {:induction false} FirstLineShape(s: string)
    requires |s| > 0
    ensures '\n' !in s[..LineLength(s) - 1]
  {
    if !(s[0] == '\n' || |s| == 1) {
      FirstLineShape(s[1..]);
      assert s[..LineLength(s) - 1] == [s[0]] + s[1..][..LineLength(s[1..]) - 1];
    }
  }

  /** A stripped line has no newline left in it. */
  lemma StripLineNoNewline(line: string)
    requires |line| > 0 && '\n' !in line[..|line| - 1]
    ensures '\n' !in Strip(line)
  {
    var u := TrimLeft(line);
    TrimLeftSuffix(line);
    TrimRightPrefix(u);
    StripIsStripped(line);
    var r := TrimRight(u);
    var off := |line| - |u|;
    forall j | 0 <= j < |r| ensures r[j] != '\n' {
      assert r[j] == line[off + j];
      if off + j == |line| - 1 {
        assert j == |r| - 1;
      } else {
        assert line[off + j] == line[..|line| - 1][off + j];
      }
    }
  }

  /** No line retained from a file read with `readlines()` holds a newline. */
  lemma RetainedNoNewline(s: string)
    ensures forall x :: x in Retained(ReadLines(s)) ==> '\n' !in x
  {
    var lines := ReadLines(s);
    ReadLinesShape(s);
    RetainedMembers(lines);
    forall x | x in Retained(lines) ensures '\n' !in x {
      var i :| 0 <= i < |lines| && !IsTokenLine(lines[i]) && x == Strip(lines[i]);
      StripLineNoNewline(lines[i]);
    }
  }

  /** Read back with `readlines()`, the written file is the retained lines followed by the
      two token lines, each with its newline, provided no token holds a newline. */
  lemma {:induction false} ReadBackRewritten(file: Option<string>, access: string, refresh: string)
    requires '\n' !in access && '\n' !in refresh
    ensures ReadLines(Rewritten(file, access, refresh))
            == Terminated(Retained(Existing(file))) + [AccessLine(access) + "\n", RefreshLine(refresh) + "\n"]
  {
    var kept := Retained(Existing(file));
    var tail := [AccessLine(access), RefreshLine(refresh)];
    RenderedUnlines(kept, access, refresh);
    if file.Some? {
      RetainedNoNewline(file.value);
    }
    var all := kept + tail;
    forall i | 0 <= i < |all| ensures '\n' !in all[i] {
      if i < |kept| {
        assert all[i] in kept;
      } else {
        assert AccessLine(access) == "VALUEAI_ACCESS_TOKEN=" + access;
        assert RefreshLine(refresh) == "VALUEAI_REFRESH_TOKEN=" + refresh;
      }
    }
    ReadUnlines(all);
    TerminatedAppend(kept, tail);
    assert tail[1..] == [RefreshLine(refresh)] && tail[1..][1..] == [];
    assert Terminated(tail) == [AccessLine(access) + "\n", RefreshLine(refresh) + "\n"];
  }

  lemma TokenLinesRetainNothing(access: string, refresh: string)
    ensures Retained([AccessLine(access) + "\n", RefreshLine(refresh) + "\n"]) == []
  {
    var tail := [AccessLine(access) + "\n", RefreshLine(refresh) + "\n"];
    TokenLinesAreDropped(access, refresh);
    assert tail[..1] == [tail[0]] && tail[..1][..0] == [];
    assert Retained(tail[..1]) == [];
  }

  /** The lines the rewrite keeps from a file it wrote itself are the lines it kept before. */
  lemma RetainedOfRewritten(file: Option<string>, access: string, refresh: string)
    requires '\n' !in access && '\n' !in refresh
    ensures Retained(ReadLines(Rewritten(file, access, refresh))) == Retained(Existing(file))
  {
    var kept := Retained(Existing(file));
    var tail := [AccessLine(access) + "\n", RefreshLine(refresh) + "\n"];
    ReadBackRewritten(file, access, refresh);
    RetainedAppend(Terminated(kept), tail);
    RetainedStripped(Existing(file));
    forall i | 0 <= i < |kept| ensures IsStripped(kept[i]) && !IsTokenLine(kept[i]) {
      assert kept[i] in kept;
    }
    RetainedTerminated(kept);
    TokenLinesRetainNothing(access, refresh);
  }

  /** Rewriting a file that was already rewritten gives what rewriting the original would have
      given: the other lines survive untouched and only the tokens change. With the same
      tokens the rewrite is idempotent. */
  lemma RewriteTwice(file: Option<string>, a1: string, r1: string, a2: string, r2: string)
    requires '\n' !in a1 && '\n' !in r1
    ensures Rewritten(Some(Rewritten(file, a1, r1)), a2, r2) == Rewritten(file, a2, r2)
  {
    RetainedOfRewritten(file, a1, r1);
  }
}
