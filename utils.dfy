/** The template engine: the placeholder pattern `\$\{(.+?)}` written out as a
    scanner, token extraction, one-pass substitution, environment lookup and
    template filling.

    The reference definitions (Names, Tokens, Substitute) walk the text one
    position at a time: when a placeholder starts at the current position it
    is consumed whole, otherwise one character is copied. The methods follow
    the source's loops instead (find the next match, copy the gap, emit the
    replacement, resume at the end of the match) and are proved equal to the
    reference definitions. */
module Utils {
  import opened Wrappers
  import opened Jenkins

  /** A replacement map as HashMap<String, String>: a value may be null. */
  type Replacements = map<string, Option<string>>

  // ---------------------------------------------------------------------------
  // The pattern \$\{(.+?)}
  // ---------------------------------------------------------------------------

  /** The characters Java's `.` does not match when DOTALL and UNIX_LINES are off. */
  predicate IsLineTerminator(c: char)
  {
    c == '\n' || c == '\r' || c == '\U{85}' || c == '\U{2028}' || c == '\U{2029}'
  }

  /** `t` starts with "${" and its character at `len - 1` is "}". */
  predicate Delimited(t: string, len: nat)
  {
    4 <= len <= |t| && t[0] == '$' && t[1] == '{' && t[len - 1] == '}'
  }

  /** `t` starts with a match of total length `len`: "${", then at least one
      character other than a line terminator, then the first "}" after that
      first character. */
  predicate MatchOfLength(t: string, len: nat)
  {
    && Delimited(t, len)
    && (forall j :: 2 <= j < len - 1 ==> !IsLineTerminator(t[j]))
    && (forall j :: 3 <= j < len - 1 ==> t[j] != '}')
  }

  /** The length of the match that starts at the first character of `t`, if
      any. MatchLenCorrect states that this is the one match length. */
  function MatchLen(t: string): (r: Option<nat>)
    ensures r.Some? ==> Delimited(t, r.value)
  {
    if |t| < 4 || t[0] != '$' || t[1] != '{' || IsLineTerminator(t[2]) then None
    else CloseFrom(t, 3)
  }

  /** The lazy `.+?` extended up to index `i`: looks for the closing brace at
      `i` or later. */
  function CloseFrom(t: string, i: nat): (r: Option<nat>)
    requires i <= |t|
    ensures r.Some? ==> i < r.value <= |t| && t[r.value - 1] == '}'
    decreases |t| - i
  {
    if i == |t| then None
    else if t[i] == '}' then Some(i + 1)
    else if IsLineTerminator(t[i]) then None
    else CloseFrom(t, i + 1)
  }

  /** Once "${" and a first character have been read and nothing before `i`
      ended the match, CloseFrom finds exactly the match lengths. */
  lemma {:induction false} CloseFromCorrect(t: string, i: nat, len: nat)
    requires 3 <= i <= |t| && t[0] == '$' && t[1] == '{'
    requires forall j :: 2 <= j < i ==> !IsLineTerminator(t[j])
    requires forall j :: 3 <= j < i ==> t[j] != '}'
    ensures MatchOfLength(t, len) <==> CloseFrom(t, i) == Some(len)
    decreases |t| - i
  {
    if i < |t| && t[i] != '}' && !IsLineTerminator(t[i]) {
      CloseFromCorrect(t, i + 1, len);
    } else if i < |t| && t[i] != '}' {
      assert MatchOfLength(t, len) ==> len - 1 <= i;
    }
  }

  /** MatchLen(t) is Some(len) exactly when t starts with a match of length
      len; in particular a text starts with at most one match. */
  lemma MatchLenCorrect(t: string, len: nat)
    ensures MatchOfLength(t, len) <==> MatchLen(t) == Some(len)
  {
    if 4 <= |t| && t[0] == '$' && t[1] == '{' && !IsLineTerminator(t[2]) {
      CloseFromCorrect(t, 3, len);
    }
  }

  /** A match found in a text: it occupies text[start..end]. */
  datatype Match = Match(start: nat, end: nat)

  /** Matcher.find() resuming at `from`: the leftmost match starting at or
      after `from`. */
  function FindFrom(text: string, from: nat): (r: Option<Match>)
    requires from <= |text|
    ensures r.Some? ==> from <= r.value.start < r.value.end <= |text|
    ensures r.Some? ==> MatchLen(text[r.value.start..]) == Some(r.value.end - r.value.start)
    ensures forall s :: from <= s < (if r.Some? then r.value.start else |text|) ==> MatchLen(text[s..]).None?
    decreases |text| - from
  {
    if from == |text| then None
    else match MatchLen(text[from..])
      case Some(len) => Some(Match(from, from + len))
      case None => FindFrom(text, from + 1)
  }

  /** A placeholder name that the pattern accepts in full between "${" and "}". */
  predicate ValidName(n: string)
  {
    && |n| >= 1
    && (forall j :: 0 <= j < |n| ==> !IsLineTerminator(n[j]))
    && (forall j :: 1 <= j < |n| ==> n[j] != '}')
  }

  /** The placeholder text for a name. */
  function Placeholder(n: string): string
  {
    "${" + n + "}"
  }

  // ---------------------------------------------------------------------------
  // Reference definitions
  // ---------------------------------------------------------------------------

  /** group(1) of every match, left to right. */
  function Names(t: string): seq<string>
    decreases |t|
  {
    if |t| == 0 then []
    else match MatchLen(t)
      case Some(len) => [t[2..len - 1]] + Names(t[len..])
      case None => Names(t[1..])
  }

  predicate IsStripped(c: char)
  {
    c == '$' || c == '{' || c == '}'
  }

  /** A name none of whose characters is `$`, `{` or `}`. */
  predicate Plain(s: string)
  {
    forall j :: 0 <= j < |s| ==> !IsStripped(s[j])
  }

  /** replaceAll("\\$", "").replaceAll("\\{", "").replaceAll("}", ""). */
  function Strip(s: string): (r: string)
    ensures Plain(r)
    ensures |r| <= |s|
  {
    if |s| == 0 then ""
    else (if IsStripped(s[0]) then "" else [s[0]]) + Strip(s[1..])
  }

  /** What extractTokens collects: every whole match, stripped. */
  function Tokens(t: string): seq<string>
    decreases |t|
  {
    if |t| == 0 then []
    else match MatchLen(t)
      case Some(len) => [Strip(t[..len])] + Tokens(t[len..])
      case None => Tokens(t[1..])
  }

  /** What tokenizeText emits for the match t[..len]: the mapped value, or the
      match itself when the name is absent or mapped to null. */
  function Rendered(t: string, len: nat, repl: Replacements): string
    requires 4 <= len <= |t|
  {
    match Lookup(repl, t[2..len - 1])
    case Some(v) => v
    case None => t[..len]
  }

  /** One left-to-right pass of substitution over the original text. */
  function Substitute(t: string, repl: Replacements): string
    decreases |t|
  {
    if |t| == 0 then ""
    else match MatchLen(t)
      case Some(len) => Rendered(t, len, repl) + Substitute(t[len..], repl)
      case None => [t[0]] + Substitute(t[1..], repl)
  }

  // ---------------------------------------------------------------------------
  // The source's loops
  // ---------------------------------------------------------------------------

  lemma {:induction false} TokensSkip(text: string, i: nat, k: nat)
    requires i <= k <= |text|
    requires forall s :: i <= s < k ==> MatchLen(text[s..]).None?
    ensures Tokens(text[i..]) == Tokens(text[k..])
    decreases k - i
  {
    if i < k {
      assert text[i..][1..] == text[i + 1..];
      TokensSkip(text, i + 1, k);
    }
  }

  lemma {:induction false} SubstituteSkip(text: string, i: nat, k: nat, repl: Replacements)
    requires i <= k <= |text|
    requires forall s :: i <= s < k ==> MatchLen(text[s..]).None?
    ensures Substitute(text[i..], repl) == text[i..k] + Substitute(text[k..], repl)
    decreases k - i
  {
    if i < k {
      var rest := Substitute(text[k..], repl);
      calc {
        Substitute(text[i..], repl);
        { assert MatchLen(text[i..]).None?; assert text[i..][1..] == text[i + 1..]; }
        [text[i]] + Substitute(text[i + 1..], repl);
        { SubstituteSkip(text, i + 1, k, repl); }
        [text[i]] + (text[i + 1..k] + rest);
        { assert [text[i]] + text[i + 1..k] == text[i..k]; }
        text[i..k] + rest;
      }
    }
  }

  /** A match at text[start..end] contributes its stripped text. */
  lemma TokensAt(text: string, start: nat, end: nat)
    requires start < end <= |text| && MatchLen(text[start..]) == Some(end - start)
    ensures Tokens(text[start..]) == [Strip(text[start..end])] + Tokens(text[end..])
  {
    assert text[start..][end - start..] == text[end..];
    assert text[start..][..end - start] == text[start..end];
  }

  /** extractTokens: one entry per match, in order, duplicates kept. */
  method ExtractTokens(text: string) returns (tokens: seq<string>)
    ensures tokens == Tokens(text)
  {
    tokens := [];
    var i := 0;
    var m := FindFrom(text, 0);
    while m.Some?
      invariant i <= |text|
      invariant m == FindFrom(text, i)
      invariant tokens + Tokens(text[i..]) == Tokens(text)
      decreases |text| - i
    {
      var start, end := m.value.start, m.value.end;
      TokensSkip(text, i, start);
      TokensAt(text, start, end);
      tokens := tokens + [Strip(text[start..end])];
      i := end;
      m := FindFrom(text, i);
    }
    TokensSkip(text, i, |text|);
    assert text[|text|..] == [];
  }

  lemma ConcatAssoc(a: string, b: string, c: string, d: string)
    ensures a + b + c + d == a + (b + c + d)
  {
  }

  /** The match text[start..end] as tokenizeText renders it. */
  lemma RenderedAt(text: string, start: nat, end: nat, repl: Replacements)
    requires start < end <= |text| && MatchLen(text[start..]) == Some(end - start)
    ensures Lookup(repl, text[start + 2..end - 1]).None? ==> Rendered(text[start..], end - start, repl) == text[start..end]
    ensures Lookup(repl, text[start + 2..end - 1]).Some? ==>
              Rendered(text[start..], end - start, repl) == Lookup(repl, text[start + 2..end - 1]).value
  {
    var t := text[start..];
    assert t[..end - start] == text[start..end];
    assert t[2..end - start - 1] == text[start + 2..end - 1];
  }

  /** The invariant of tokenizeText's loop carried over one match. */
  lemma SubstituteRound(text: string, i: nat, start: nat, end: nat, repl: Replacements, before: string)
    requires i <= start < end <= |text|
    requires MatchLen(text[start..]) == Some(end - start)
    requires forall s :: i <= s < start ==> MatchLen(text[s..]).None?
    requires before + Substitute(text[i..], repl) == Substitute(text, repl)
    ensures before + text[i..start] + Rendered(text[start..], end - start, repl) + Substitute(text[end..], repl)
         == Substitute(text, repl)
  {
    SubstituteStep(text, i, start, end, repl);
    ConcatAssoc(before, text[i..start], Rendered(text[start..], end - start, repl), Substitute(text[end..], repl));
  }

  /** One round of tokenizeText's loop: the gap before the next match, then
      what the match is rendered as, then the rest of the text. */
  lemma SubstituteStep(text: string, i: nat, start: nat, end: nat, repl: Replacements)
    requires i <= start < end <= |text|
    requires MatchLen(text[start..]) == Some(end - start)
    requires forall s :: i <= s < start ==> MatchLen(text[s..]).None?
    ensures Substitute(text[i..], repl)
         == text[i..start] + Rendered(text[start..], end - start, repl) + Substitute(text[end..], repl)
  {
    SubstituteSkip(text, i, start, repl);
    SubstituteAt(text, start, end, repl);
  }

  /** A match at text[start..end] is rendered, then the rest is substituted. */
  lemma SubstituteAt(text: string, start: nat, end: nat, repl: Replacements)
    requires start < end <= |text| && MatchLen(text[start..]) == Some(end - start)
    ensures Substitute(text[start..], repl) == Rendered(text[start..], end - start, repl) + Substitute(text[end..], repl)
  {
  }

  /** tokenizeText: copies the gaps, replaces each match whose name maps to a
      value, re-emits the others verbatim, and never looks at emitted text
      again. */
  method TokenizeText(text: string, replacements: Replacements) returns (r: string)
    ensures r == Substitute(text, replacements)
  {
    var builder := "";
    var i := 0;
    var m := FindFrom(text, 0);
    while m.Some?
      invariant i <= |text|
      invariant m == FindFrom(text, i)
      invariant builder + Substitute(text[i..], replacements) == Substitute(text, replacements)
      decreases |text| - i
    {
      var start, end := m.value.start, m.value.end;
      ghost var rendered := Rendered(text[start..], end - start, replacements);
      SubstituteRound(text, i, start, end, replacements, builder);
      RenderedAt(text, start, end, replacements);
      var replacement := Lookup(replacements, text[start + 2..end - 1]);
      builder := builder + text[i..start];
      if replacement.None? {
        builder := builder + text[start..end];
        assert rendered == text[start..end];
      } else {
        builder := builder + replacement.value;
        assert rendered == replacement.value;
      }
      i := end;
      m := FindFrom(text, i);
    }
    SubstituteSkip(text, i, |text|, replacements);
    assert text[|text|..] == [];
    builder := builder + text[i..|text|];
    r := builder;
  }

  // ---------------------------------------------------------------------------
  // Environment lookup and template filling
  // ---------------------------------------------------------------------------

  /** getEnvVar: the process environment wins when it holds a non-empty value;
      otherwise the build environment decides. Here `build` is the EnvVars
      argument itself, and None is a null EnvVars (fillTemplate never passes
      one). In TokenValue, Resolution, Resolved and Filled, by contrast, None
      means that getEnvironment threw. */
  function GetEnvVar(process: Env, build: Option<Env>, name: string): (r: Option<string>)
    ensures name in process && process[name] != "" ==> r == Some(process[name])
    ensures (name !in process || process[name] == "") && build.Some? ==> r == Get(build.value, name)
    ensures (name !in process || process[name] == "") && build.None? ==> r == Get(process, name)
  {
    var env := Get(process, name);
    if build.Some? && (env.None? || env == Some("")) then Get(build.value, name) else env
  }

  /** The value fillTemplate stores for a token: "" when getEnvironment throws
      (`build` is None). */
  function TokenValue(process: Env, build: Option<Env>, token: string): Option<string>
  {
    if build.None? then Some("") else GetEnvVar(process, build, token)
  }

  /** How a placeholder named `name` ends up being rendered by fillTemplate:
      the map is keyed by stripped tokens but read with group(1), so only a
      plain name finds its entry. */
  function Resolution(process: Env, build: Option<Env>, name: string): (r: Option<string>)
    ensures !Plain(name) ==> r.None?
    ensures Plain(name) && build.None? ==> r == Some("")
    ensures Plain(name) && build.Some? && name in process && process[name] != "" ==> r == Some(process[name])
    ensures Plain(name) && build.Some? && (name !in process || process[name] == "") ==> r == Get(build.value, name)
  {
    if Plain(name) then TokenValue(process, build, name) else None
  }

  /** The replacement map fillTemplate behaves as if it had built: one entry
      per placeholder name of the template, holding its Resolution. */
  function Resolved(template: string, process: Env, build: Option<Env>): (m: Replacements)
    ensures forall n :: n in Names(template) ==> Lookup(m, n) == Resolution(process, build, n)
  {
    map n | n in Names(template) :: Resolution(process, build, n)
  }

  /** The text fillTemplate produces. */
  function Filled(template: string, process: Env, build: Option<Env>): string
  {
    Substitute(template, Resolved(template, process, build))
  }

  /** fillTemplate: resolve every extracted token, then substitute. */
  method FillTemplate(template: string, build: Build, process: Env) returns (r: string)
    ensures r == Filled(template, process, build.Environment())
  {
    var tokens := ExtractTokens(template);
    var environment := build.Environment();
    var replacements: Replacements := map[];
    var k := 0;
    while k < |tokens|
      invariant k <= |tokens|
      invariant forall t :: t in replacements <==> t in tokens[..k]
      invariant forall t :: t in replacements ==> replacements[t] == TokenValue(process, environment, t)
    {
      var varValue := Some("");
      if environment.Some? {
        varValue := GetEnvVar(process, environment, tokens[k]);
      }
      replacements := replacements[tokens[k] := varValue];
      assert tokens[..k + 1] == tokens[..k] + [tokens[k]];
      k := k + 1;
    }
    assert tokens[..k] == tokens;
    r := TokenizeText(template, replacements);
    ReplacementsResolveNames(template, replacements, process, environment);
    SubstituteCongruent(template, replacements, Resolved(template, process, environment));
  }

  /** setEnvironmentVariables: every entry becomes a variable of the build. */
  method SetEnvironmentVariables(build: Build, vars: Env)
    modifies build
    ensures build.env == old(build.env) + vars
  {
    var pending := vars.Keys;
    while pending != {}
      invariant pending <= vars.Keys
      invariant build.env == old(build.env) + map k | k in vars.Keys - pending :: vars[k]
      decreases pending
    {
      var key :| key in pending;
      build.env := build.env[key := vars[key]];
      pending := pending - {key};
    }
    assert vars.Keys - pending == vars.Keys;
  }

  // ---------------------------------------------------------------------------
  // Properties
  // ---------------------------------------------------------------------------

  /** Removing $, { and } distributes over concatenation. */
  lemma {:induction false} StripConcat(a: string, b: string)
    ensures Strip(a + b) == Strip(a) + Strip(b)
    decreases |a|
  {
    if |a| > 0 {
      assert (a + b)[0] == a[0];
      assert (a + b)[1..] == a[1..] + b;
      StripConcat(a[1..], b);
    } else {
      assert a + b == b;
    }
  }

  /** Strip leaves a name unchanged exactly when it is plain. */
  lemma {:induction false} StripIdentityIffPlain(s: string)
    ensures Strip(s) == s <==> Plain(s)
    decreases |s|
  {
    if |s| > 0 {
      StripIdentityIffPlain(s[1..]);
      if IsStripped(s[0]) {
        assert |Strip(s)| <= |s[1..]| < |s|;
      } else if Strip(s) == s {
        assert Strip(s[1..]) == s[1..];
      }
    }
  }

  /** The token extracted from a match is its group(1) with $, { and } removed. */
  lemma StripMatch(t: string, len: nat)
    requires Delimited(t, len)
    ensures Strip(t[..len]) == Strip(t[2..len - 1])
  {
    var mid := t[2..len - 1];
    assert t[..len] == "${" + (mid + "}");
    assert Strip("}") == "" by { assert "}"[1..] == ""; }
    assert Strip("{") == "" by { assert "{"[1..] == ""; }
    assert Strip("${") == "" by { assert "${"[1..] == "{"; }
    StripConcat("${", mid + "}");
    StripConcat(mid, "}");
    assert mid + "" == mid;
  }

  /** extractTokens returns, for each group(1) in order, that name stripped of
      $, { and }; so a token equals its name exactly when the name is plain. */
  lemma {:induction false} TokensAreStrippedNames(t: string)
    ensures |Tokens(t)| == |Names(t)|
    ensures forall k :: 0 <= k < |Names(t)| ==> Tokens(t)[k] == Strip(Names(t)[k])
    ensures forall k :: 0 <= k < |Names(t)| ==> (Tokens(t)[k] == Names(t)[k] <==> Plain(Names(t)[k]))
    ensures forall k :: 0 <= k < |Tokens(t)| ==> Plain(Tokens(t)[k])
    decreases |t|
  {
    if |t| > 0 {
      match MatchLen(t)
      case Some(len) =>
        TokensAreStrippedNames(t[len..]);
        StripMatch(t, len);
      case None =>
        TokensAreStrippedNames(t[1..]);
    }
    forall k | 0 <= k < |Names(t)|
      ensures Tokens(t)[k] == Names(t)[k] <==> Plain(Names(t)[k])
    {
      StripIdentityIffPlain(Names(t)[k]);
    }
  }

  /** Substitution reads the map only at the placeholder names of the text. */
  lemma {:induction false} SubstituteCongruent(t: string, r1: Replacements, r2: Replacements)
    requires forall n :: n in Names(t) ==> Lookup(r1, n) == Lookup(r2, n)
    ensures Substitute(t, r1) == Substitute(t, r2)
    decreases |t|
  {
    if |t| > 0 {
      match MatchLen(t)
      case Some(len) =>
        assert t[2..len - 1] in Names(t);
        SubstituteCongruent(t[len..], r1, r2);
      case None =>
        SubstituteCongruent(t[1..], r1, r2);
    }
  }

  /** The map built from stripped tokens answers every group(1) lookup with
      that name's Resolution. */
  lemma ReplacementsResolveNames(template: string, replacements: Replacements, process: Env, build: Option<Env>)
    requires forall t :: t in replacements <==> t in Tokens(template)
    requires forall t :: t in replacements ==> replacements[t] == TokenValue(process, build, t)
    ensures forall n :: n in Names(template) ==> Lookup(replacements, n) == Resolution(process, build, n)
  {
    TokensAreStrippedNames(template);
    forall n | n in Names(template)
      ensures Lookup(replacements, n) == Resolution(process, build, n)
    {
      var k :| 0 <= k < |Names(template)| && Names(template)[k] == n;
      if Plain(n) {
        assert Tokens(template)[k] == n;
      } else {
        assert n !in Tokens(template);
      }
    }
  }

  /** When no placeholder of the text has a value (in particular for an empty
      map, or a text without placeholders), substitution returns the text. */
  lemma {:induction false} SubstituteUnmappedIsIdentity(t: string, repl: Replacements)
    requires forall n :: n in Names(t) ==> Lookup(repl, n).None?
    ensures Substitute(t, repl) == t
    decreases |t|
  {
    if |t| > 0 {
      match MatchLen(t)
      case Some(len) =>
        assert t[2..len - 1] in Names(t);
        SubstituteUnmappedIsIdentity(t[len..], repl);
        assert t[..len] + t[len..] == t;
      case None =>
        SubstituteUnmappedIsIdentity(t[1..], repl);
        assert [t[0]] + t[1..] == t;
    }
  }

  /** Text without a `$` holds no placeholder and is copied verbatim ahead of
      whatever follows it. */
  lemma {:induction false} SubstituteLiteralPrefix(a: string, b: string, repl: Replacements)
    requires forall j :: 0 <= j < |a| ==> a[j] != '$'
    ensures Substitute(a + b, repl) == a + Substitute(b, repl)
    ensures Names(a + b) == Names(b)
    decreases |a|
  {
    if |a| > 0 {
      var t := a + b;
      assert t[0] == a[0];
      assert MatchLen(t).None?;
      assert t[1..] == a[1..] + b;
      SubstituteLiteralPrefix(a[1..], b, repl);
      calc {
        Substitute(t, repl);
        [a[0]] + Substitute(a[1..] + b, repl);
        [a[0]] + (a[1..] + Substitute(b, repl));
        { assert [a[0]] + a[1..] == a; }
        a + Substitute(b, repl);
      }
    } else {
      assert a + b == b;
    }
  }

  /** A well-formed placeholder at the front is matched exactly and rendered
      by its own lookup; the rest is processed independently. */
  lemma SubstitutePlaceholder(n: string, b: string, repl: Replacements)
    requires ValidName(n)
    ensures MatchLen(Placeholder(n) + b) == Some(|n| + 3)
    ensures Names(Placeholder(n) + b) == [n] + Names(b)
    ensures Substitute(Placeholder(n) + b, repl)
         == (match Lookup(repl, n) case Some(v) => v case None => Placeholder(n)) + Substitute(b, repl)
  {
    var t := Placeholder(n) + b;
    assert t[0] == '$' && t[1] == '{' && t[|n| + 2] == '}';
    assert t[2..|n| + 2] == n;
    assert t[..|n| + 3] == Placeholder(n);
    assert t[|n| + 3..] == b;
    MatchLenCorrect(t, |n| + 3);
  }

  /** The replacement value is emitted as it is, even when it contains a
      placeholder itself: inserted text is never scanned. */
  lemma SubstituteNoRescan(n: string, v: string, repl: Replacements)
    requires ValidName(n) && Lookup(repl, n) == Some(v)
    ensures Substitute(Placeholder(n), repl) == v
  {
    SubstitutePlaceholder(n, "", repl);
    assert Placeholder(n) + "" == Placeholder(n);
  }

  /** fillTemplate copies text without a `$` ahead of what follows it. */
  lemma FilledLiteralPrefix(a: string, b: string, process: Env, build: Option<Env>)
    requires forall j :: 0 <= j < |a| ==> a[j] != '$'
    ensures Filled(a + b, process, build) == a + Filled(b, process, build)
  {
    SubstituteLiteralPrefix(a, b, Resolved(a + b, process, build));
  }

  /** fillTemplate renders a leading placeholder by its name's Resolution and
      fills the rest of the template on its own. */
  lemma FilledPlaceholder(n: string, b: string, process: Env, build: Option<Env>)
    requires ValidName(n)
    ensures Filled(Placeholder(n) + b, process, build)
         == (match Resolution(process, build, n) case Some(v) => v case None => Placeholder(n)) + Filled(b, process, build)
  {
    var whole := Resolved(Placeholder(n) + b, process, build);
    SubstitutePlaceholder(n, b, whole);
    assert n in Names(Placeholder(n) + b);
    forall m | m in Names(b)
      ensures Lookup(whole, m) == Lookup(Resolved(b, process, build), m)
    {
      assert m in Names(Placeholder(n) + b);
    }
    SubstituteCongruent(b, whole, Resolved(b, process, build));
  }

  /** A leading placeholder whose name resolves to `v` is replaced by `v`. */
  lemma FilledPlaceholderValue(n: string, b: string, process: Env, build: Option<Env>, v: string)
    requires ValidName(n) && Resolution(process, build, n) == Some(v)
    ensures Filled(Placeholder(n) + b, process, build) == v + Filled(b, process, build)
  {
    FilledPlaceholder(n, b, process, build);
  }

  /** fillTemplate on a lone placeholder: a name holding $, { or } is never
      replaced, whatever the environments hold; a name is replaced by "" when
      the build environment cannot be fetched; otherwise the process value
      wins when non-empty, then the build value, and a name defined nowhere
      stays as it is. */
  lemma FilledPlaceholderCases(n: string, process: Env, build: Option<Env>)
    requires ValidName(n)
    ensures !Plain(n) ==> Filled(Placeholder(n), process, build) == Placeholder(n)
    ensures Plain(n) && build.None? ==> Filled(Placeholder(n), process, build) == ""
    ensures Plain(n) && build.Some? && n in process && process[n] != ""
            ==> Filled(Placeholder(n), process, build) == process[n]
    ensures Plain(n) && build.Some? && (n !in process || process[n] == "") && n in build.value
            ==> Filled(Placeholder(n), process, build) == build.value[n]
    ensures Plain(n) && build.Some? && (n !in process || process[n] == "") && n !in build.value
            ==> Filled(Placeholder(n), process, build) == Placeholder(n)
  {
    FilledPlaceholder(n, "", process, build);
    assert Placeholder(n) + "" == Placeholder(n);
  }

  /** The shape of the pattern on small inputs. */
  lemma MatchShapes()
    ensures MatchLen("${abc").None?
    ensures MatchLen("${a\nb}").None?
    ensures MatchLen("${}").None?
    ensures MatchLen("${}}") == Some(4) && Names("${}}") == ["}"]
    ensures FindFrom("$${A}", 0) == Some(Match(1, 5)) && Names("$${A}") == ["A"]
  {
    assert "${}}"[2..3] == "}";
    assert "$${A}"[1..] == "${A}";
    assert "${A}"[2..3] == "A";
  }
}
