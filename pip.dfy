/** The `pip install` pseudo-command of the terminal: the regular expression
    `^(!)?pip3?\s+install\s+(.+)$` with the `i` flag, applied to the trimmed
    command line, and the package name taken from its second group.

    The match is deterministic, and the recognizer follows the pattern in
    three stages: `(!)?pip3?`, then `\s+install`, then `\s+(.+)$`. `(!)?`,
    `3?` and the first `\s+` each have a single way to continue; the greedy
    second `\s+` takes the whole whitespace run, giving one character back
    to `.+` when that run reaches the end of the input. */
module PipCommand {
  import opened Options
  import opened JsText

  function Bang(bang: bool): string {
    if bang then "!" else ""
  }

  /** What follows `(!)?pip3?` at the front of `s`, or None. */
  function StripPip(s: string): (t: Option<string>)
    ensures t.Some? && t.value != [] ==> |s| > 0 && t.value[|t.value| - 1] == s[|s| - 1]
  {
    var i := if |s| > 0 && s[0] == '!' then 1 else 0;
    if i + 3 <= |s| && EqualsIgnoringCase(s[i..i + 3], "pip") then
      Some(if i + 3 < |s| && s[i + 3] == '3' then s[i + 4..] else s[i + 3..])
    else None
  }

  /** What follows `\s+install` at the front of `t`, or None. */
  function StripInstall(t: string): (u: Option<string>)
    ensures u.Some? && u.value != [] ==> |t| > 0 && u.value[|u.value| - 1] == t[|t| - 1]
  {
    var k := SpaceRun(t);
    if 0 < k && k + 7 <= |t| && EqualsIgnoringCase(t[k..k + 7], "install") then Some(t[k + 7..])
    else None
  }

  /** The group `(.+)` of `\s+(.+)$` matched against all of `u`, or None.
      It starts with whitespace only when `\s+` gave back its last
      character, and then that character is all of it. */
  function Group(u: string): (g: Option<string>)
    ensures g.Some? ==> g.value != [] && NoLineTerminator(g.value)
    ensures g.Some? && IsSpace(g.value[0]) ==> |g.value| == 1
    ensures g.Some? ==> |u| > 0 && g.value[|g.value| - 1] == u[|u| - 1]
  {
    var n := SpaceRun(u);
    var start := if n < |u| then n else n - 1;
    if start < 1 || !NoLineTerminator(u[start..]) then None else Some(u[start..])
  }

  /** What the regular expression captures in its second group, or None when
      it does not match. */
  function MatchPip(s: string): (g: Option<string>)
    ensures g.Some? ==> g.value != [] && NoLineTerminator(g.value)
    ensures g.Some? && IsSpace(g.value[0]) ==> |g.value| == 1
    ensures g.Some? ==> |s| > 0 && g.value[|g.value| - 1] == s[|s| - 1]
  {
    match StripPip(s)
    case None => None
    case Some(t) =>
      match StripInstall(t)
      case None => None
      case Some(u) => Group(u)
  }

  /** The shape the regular expression describes: an optional `!`, `pip` or
      `pip3` in any case, whitespace, `install` in any case, whitespace, and a
      non-empty rest with no line terminator in it. */
  predicate InstallShape(s: string, bang: bool, pip: string, w1: string, ins: string, w2: string, rest: string) {
    s == Bang(bang) + (pip + (w1 + (ins + (w2 + rest)))) &&
    (EqualsIgnoringCase(pip, "pip") || EqualsIgnoringCase(pip, "pip3")) &&
    w1 != [] && AllSpace(w1) && EqualsIgnoringCase(ins, "install") &&
    w2 != [] && AllSpace(w2) && rest != [] && NoLineTerminator(rest)
  }

  lemma StripPipSound(s: string) returns (bang: bool, pip: string)
    requires StripPip(s).Some?
    ensures s == Bang(bang) + (pip + StripPip(s).value)
    ensures EqualsIgnoringCase(pip, "pip") || EqualsIgnoringCase(pip, "pip3")
  {
    var i := if |s| > 0 && s[0] == '!' then 1 else 0;
    var j := if i + 3 < |s| && s[i + 3] == '3' then i + 4 else i + 3;
    bang, pip := i == 1, s[i..j];
    assert pip[..3] == s[i..i + 3];
    assert s[..i] == Bang(bang);
    assert s == s[..i] + (s[i..j] + s[j..]);
  }

  lemma StripPipComplete(s: string, bang: bool, pip: string, t: string)
    requires s == Bang(bang) + pip + t
    requires EqualsIgnoringCase(pip, "pip") || EqualsIgnoringCase(pip, "pip3")
    requires t != [] && IsSpace(t[0])
    ensures StripPip(s) == Some(t)
  {
    var i := |Bang(bang)|;
    assert AsciiLower(pip[0]) == 'p';
    assert s[0] == if bang then '!' else pip[0];
    assert s[i..i + 3] == pip[..3];
    if |pip| == 3 {
      assert s[i + 3] == t[0];
    } else {
      assert s[i + 3] == pip[3];
    }
    assert s[i + |pip|..] == t;
  }

  lemma StripInstallSound(t: string) returns (w1: string, ins: string)
    requires StripInstall(t).Some?
    ensures t == w1 + (ins + StripInstall(t).value)
    ensures w1 != [] && AllSpace(w1) && EqualsIgnoringCase(ins, "install")
  {
    var k := SpaceRun(t);
    w1, ins := t[..k], t[k..k + 7];
    assert t == t[..k] + (t[k..k + 7] + t[k + 7..]);
  }

  lemma StripInstallComplete(t: string, w1: string, ins: string, u: string)
    requires t == w1 + ins + u
    requires w1 != [] && AllSpace(w1) && EqualsIgnoringCase(ins, "install")
    ensures StripInstall(t) == Some(u)
  {
    assert t == w1 + (ins + u);
    SpaceRunAfterSpace(w1, ins + u);
    assert AsciiLower(ins[0]) == 'i';
    assert SpaceRun(ins + u) == 0;
    assert t[|w1|..|w1| + 7] == ins;
    assert t[|w1| + 7..] == u;
  }

  lemma GroupSound(u: string) returns (w2: string)
    requires Group(u).Some?
    ensures u == w2 + Group(u).value
    ensures w2 != [] && AllSpace(w2)
  {
    var n := SpaceRun(u);
    var start := if n < |u| then n else n - 1;
    w2 := u[..start];
    assert w2 == u[..n][..start];
    assert u == u[..start] + u[start..];
  }

  /** `g` is `rest` with at most some leading whitespace removed. */
  predicate RestLessSpace(rest: string, g: string) {
    |g| <= |rest| && g == rest[|rest| - |g|..] && AllSpace(rest[..|rest| - |g|])
  }

  lemma GroupComplete(u: string, w2: string, rest: string)
    requires u == w2 + rest
    requires w2 != [] && AllSpace(w2) && rest != [] && NoLineTerminator(rest)
    ensures Group(u).Some? && RestLessSpace(rest, Group(u).value)
  {
    SpaceRunAfterSpace(w2, rest);
    var r := SpaceRun(rest);
    if r < |rest| {
      assert u[|w2| + r..] == rest[r..];
    } else {
      assert u[|u| - 1..] == rest[|rest| - 1..];
      assert rest[..|rest| - 1] == rest[..r][..|rest| - 1];
    }
  }

  /** Whatever the recognizer accepts has the shape of the regular expression,
      with the captured group as its rest. */
  lemma MatchPipSound(s: string) returns (bang: bool, pip: string, w1: string, ins: string, w2: string)
    requires MatchPip(s).Some?
    ensures InstallShape(s, bang, pip, w1, ins, w2, MatchPip(s).value)
  {
    bang, pip := StripPipSound(s);
    var t := StripPip(s).value;
    w1, ins := StripInstallSound(t);
    var u := StripInstall(t).value;
    w2 := GroupSound(u);
    var g := Group(u).value;
    assert MatchPip(s).value == g;
  }

  /** On a line of the install shape, `(!)?pip3?` and `\s+install` consume
      exactly the prefix up to the second run of whitespace. */
  lemma PrefixStagesComplete(s: string, bang: bool, pip: string, w1: string, ins: string, w2: string, rest: string)
    requires InstallShape(s, bang, pip, w1, ins, w2, rest)
    ensures StripPip(s) == Some(w1 + (ins + (w2 + rest)))
    ensures StripInstall(w1 + (ins + (w2 + rest))) == Some(w2 + rest)
  {
    var t := w1 + (ins + (w2 + rest));
    StripPipComplete(s, bang, pip, t);
    assert t == w1 + ins + (w2 + rest);
    StripInstallComplete(t, w1, ins, w2 + rest);
  }

  /** Every line of that shape is accepted, and the captured group is its rest
      with at most some leading whitespace removed. */
  lemma MatchPipComplete(s: string, bang: bool, pip: string, w1: string, ins: string, w2: string, rest: string)
    requires InstallShape(s, bang, pip, w1, ins, w2, rest)
    ensures MatchPip(s).Some? && RestLessSpace(rest, MatchPip(s).value)
  {
    PrefixStagesComplete(s, bang, pip, w1, ins, w2, rest);
    GroupComplete(w2 + rest, w2, rest);
    assert MatchPip(s) == Group(w2 + rest);
  }

  /** The package a command line asks for: the second group, trimmed. On a
      trimmed line, which is all the terminal passes, the package is the
      group itself and never empty. */
  function ParseInstall(cmd: string): (pkg: Option<string>)
    ensures pkg.Some? ==> MatchPip(cmd).Some?
    ensures Trimmed(cmd) && pkg.Some? ==> pkg.value != [] && pkg.value == MatchPip(cmd).value
  {
    match MatchPip(cmd)
    case None => None
    case Some(g) =>
      GroupOfTrimmed(cmd);
      Some(Trim(g))
  }

  /** On a trimmed line the captured group is already trimmed. */
  lemma GroupOfTrimmed(cmd: string)
    requires MatchPip(cmd).Some?
    ensures Trimmed(cmd) ==> Trim(MatchPip(cmd).value) == MatchPip(cmd).value
  {
    var g := MatchPip(cmd).value;
    if Trimmed(cmd) {
      assert g[|g| - 1] == cmd[|cmd| - 1];
      assert !IsSpace(g[0]);
      TrimOfTrimmed(g);
    }
  }

  /** A command line is an install command exactly when it has the shape of
      the regular expression; the package is then the shape's rest, trimmed. */
  lemma ParseInstallSound(cmd: string) returns (bang: bool, pip: string, w1: string, ins: string, w2: string, rest: string)
    requires ParseInstall(cmd).Some?
    ensures InstallShape(cmd, bang, pip, w1, ins, w2, rest)
    ensures ParseInstall(cmd).value == Trim(rest)
  {
    bang, pip, w1, ins, w2 := MatchPipSound(cmd);
    rest := MatchPip(cmd).value;
  }

  lemma ParseInstallComplete(cmd: string, bang: bool, pip: string, w1: string, ins: string, w2: string, rest: string)
    requires InstallShape(cmd, bang, pip, w1, ins, w2, rest)
    ensures ParseInstall(cmd) == Some(Trim(rest))
    ensures Trimmed(cmd) ==> Trim(rest) != []
  {
    MatchPipComplete(cmd, bang, pip, w1, ins, w2, rest);
    var g := MatchPip(cmd).value;
    var w := rest[..|rest| - |g|];
    assert rest == w + g;
    TrimSkipsLeadingSpace(w, g);
  }
}
