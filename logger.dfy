/**
 * lib/logger.ts: the level-gated, pattern-suppressing logger.
 *
 * The environment (`NODE_ENV`, `DEBUG`) enters as an Env value, and a
 * console call is modelled by the line the logger would hand to the
 * console: its prefix followed by the caller's arguments. The regular
 * expressions of the suppression list are kept as their source text and
 * interpreted by a small matcher that knows the only metacharacters those
 * sources use: `.` (any character but a line terminator) and `$` (end of
 * input); every other character stands for itself.
 */
module Logging {
  import opened Wrappers
  import opened Strings

  /** `"debug" | "info" | "warn" | "error" | "none"`; `none` is Silent here. */
  datatype LogLevel = Debug | Info | Warn | Error | Silent

  /** The levels from the most verbose to none. */
  const LevelOrder: seq<LogLevel> := [Debug, Info, Warn, Error, Silent]

  /** `logLevelValue` (lines 49-55): a level's place in LevelOrder. */
  function Rank(l: LogLevel): (r: nat)
    ensures r < |LevelOrder| && LevelOrder[r] == l
  {
    match l
    case Debug => 0
    case Info => 1
    case Warn => 2
    case Error => 3
    case Silent => 4
  }

  datatype Prefixes = Prefixes(debug: string, info: string, warn: string, error: string)

  /** A suppression entry: a regular expression (by its source) or a plain string. */
  datatype Pattern = Regex(source: string) | Literal(text: string)

  datatype Config = Config(minLevel: LogLevel, forceLogsInProduction: bool, prefixes: Prefixes, suppressPatterns: seq<Pattern>)

  /** `Partial<LoggerConfig>`: None is a key the caller did not pass. */
  datatype PartialConfig = PartialConfig(
    minLevel: Option<LogLevel>,
    forceLogsInProduction: Option<bool>,
    prefixes: Option<Prefixes>,
    suppressPatterns: Option<seq<Pattern>>)

  datatype Env = Env(nodeEnv: Option<string>, debug: Option<string>)

  predicate DebugOn(env: Env) {
    env.debug == Some("true")
  }

  predicate Production(env: Env) {
    env.nodeEnv == Some("production")
  }

  /** `Warning: React.createFactory$$$$ is deprecated`, written in two parts. */
  const CreateFactorySource: string := CreateFactoryHead + CreateFactoryTail
  const RedisMockNotice: string := "Usando cliente de Redis simulado"

  /** The suppression list of lines 33-45, in order. */
  function SuppressPatterns(): seq<Pattern> {
    [ Regex("Warning: ReactDOM.render is no longer supported"),
      Regex(CreateFactorySource),
      Regex("Warning: Using UNSAFE_"),
      Regex("Warning: ReactDOM.render has not been supported"),
      Regex("Warning: React.jsx: type is invalid"),
      Regex("Este m\U{00F3}dulo solo debe importarse desde el servidor"),
      Regex("Variables de entorno de Redis no definidas"),
      Regex("URL de Redis no comienza con https"),
      Regex(RedisMockNotice) ]
  }

  const DefaultPrefixes := Prefixes("[DEBUG]", "[INFO]", "[WARN]", "[ERROR]")

  /** `defaultConfig` (lines 22-46). */
  function DefaultConfig(env: Env): (c: Config)
    ensures DebugOn(env) ==> c.minLevel == Debug && c.forceLogsInProduction
    ensures !DebugOn(env) ==> !c.forceLogsInProduction && c.minLevel == (if Production(env) then Info else Debug)
    ensures c.prefixes == DefaultPrefixes && c.suppressPatterns == SuppressPatterns()
  {
    Config(
      if DebugOn(env) then Debug else if Production(env) then Info else Debug,
      DebugOn(env),
      DefaultPrefixes,
      SuppressPatterns())
  }

  /** `{ ...defaultConfig, ...config }` (line 64). */
  function Merge(d: Config, p: PartialConfig): (c: Config)
    ensures c.minLevel == p.minLevel.GetOr(d.minLevel)
    ensures c.forceLogsInProduction == p.forceLogsInProduction.GetOr(d.forceLogsInProduction)
    ensures c.prefixes == p.prefixes.GetOr(d.prefixes)
    ensures c.suppressPatterns == p.suppressPatterns.GetOr(d.suppressPatterns)
  {
    Config(
      p.minLevel.GetOr(d.minLevel),
      p.forceLogsInProduction.GetOr(d.forceLogsInProduction),
      p.prefixes.GetOr(d.prefixes),
      p.suppressPatterns.GetOr(d.suppressPatterns))
  }

  const NoOverrides := PartialConfig(None, None, None, None)

  /** `new Logger()` keeps the defaults, and a full override replaces them all. */
  lemma MergeLaws(d: Config, c: Config)
    ensures Merge(d, NoOverrides) == d
    ensures Merge(d, PartialConfig(Some(c.minLevel), Some(c.forceLogsInProduction), Some(c.prefixes), Some(c.suppressPatterns))) == c
  {
  }

  // ---------------------------------------------------------------------
  // The regular expressions of the suppression list.

  datatype Atom = Lit(c: char) | AnyChar | EndOfInput

  function AtomOf(c: char): Atom {
    if c == '.' then AnyChar else if c == '$' then EndOfInput else Lit(c)
  }

  /** The source text of a pattern read as a sequence of atoms. */
  function Compile(src: string): (r: seq<Atom>)
    ensures |r| == |src|
    ensures forall k :: 0 <= k < |src| ==> r[k] == AtomOf(src[k])
  {
    seq(|src|, k requires 0 <= k < |src| => AtomOf(src[k]))
  }

  /** ECMAScript's LineTerminator code points, which `.` does not match. */
  predicate IsLineTerminator(c: char) {
    c == '\n' || c == '\r' || c == '\U{2028}' || c == '\U{2029}'
  }

  /** Where matching `atoms` from position `i` of `s` ends, if it succeeds. */
  function Advance(atoms: seq<Atom>, s: string, i: nat): (r: Option<nat>)
    requires i <= |s|
    decreases |atoms|
    ensures r.Some? ==> i <= r.value <= |s|
  {
    if |atoms| == 0 then Some(i)
    else match atoms[0]
      case Lit(c) => if i < |s| && s[i] == c then Advance(atoms[1..], s, i + 1) else None
      case AnyChar => if i < |s| && !IsLineTerminator(s[i]) then Advance(atoms[1..], s, i + 1) else None
      case EndOfInput => if i == |s| then Advance(atoms[1..], s, i) else None
  }

  /** `regex.test(s)` for a regular expression without flags: a match starting anywhere. */
  predicate RegexTest(src: string, s: string) {
    exists i: nat :: i <= |s| && Advance(Compile(src), s, i).Some?
  }

  /** A source without metacharacters. */
  predicate Plain(src: string) {
    '.' !in src && '$' !in src
  }

  /** Matching two pieces one after the other. */
  lemma {:induction false} AdvanceAppend(a: seq<Atom>, b: seq<Atom>, s: string, i: nat)
    requires i <= |s|
    ensures Advance(a + b, s, i) == (match Advance(a, s, i) case None => None case Some(j) => Advance(b, s, j))
    decreases |a|
  {
    if |a| > 0 {
      assert (a + b)[0] == a[0];
      assert (a + b)[1..] == a[1..] + b;
      match a[0]
      case Lit(c) => if i < |s| && s[i] == c { AdvanceAppend(a[1..], b, s, i + 1); }
      case AnyChar => if i < |s| && !IsLineTerminator(s[i]) { AdvanceAppend(a[1..], b, s, i + 1); }
      case EndOfInput => if i == |s| { AdvanceAppend(a[1..], b, s, i); }
    } else {
      assert a + b == b;
    }
  }

  lemma CompileAppend(x: string, y: string)
    ensures Compile(x + y) == Compile(x) + Compile(y)
  {
    assert forall k :: 0 <= k < |x + y| ==> (x + y)[k] == if k < |x| then x[k] else y[k - |x|];
  }

  /** A source without metacharacters matches at `i` exactly where its text occurs. */
  lemma {:induction false} AdvanceLiteral(src: string, s: string, i: nat)
    requires Plain(src) && i <= |s|
    ensures Advance(Compile(src), s, i) == if OccursAt(s, src, i) then Some(i + |src|) else None
    decreases |src|
  {
    if |src| > 0 {
      var rest := src[1..];
      assert Compile(src)[1..] == Compile(rest);
      assert Compile(src)[0] == Lit(src[0]);
      assert Plain(rest) by {
        assert forall c :: c in rest ==> c in src;
      }
      if i < |s| && s[i] == src[0] {
        AdvanceLiteral(rest, s, i + 1);
        if i + |src| <= |s| {
          assert s[i..i + |src|] == [s[i]] + s[i + 1..i + 1 + |rest|];
          assert src == [src[0]] + rest;
        }
      } else if i + |src| <= |s| {
        assert s[i..i + |src|][0] == s[i];
      }
    }
  }

  /** A plain pattern is found exactly when the message contains its text. */
  lemma PlainRegexIsContains(src: string, s: string)
    requires Plain(src)
    ensures RegexTest(src, s) <==> Contains(s, src)
  {
    if RegexTest(src, s) {
      var i: nat :| i <= |s| && Advance(Compile(src), s, i).Some?;
      AdvanceLiteral(src, s, i);
    }
    if Contains(s, src) {
      var i: nat :| i <= |s| && OccursAt(s, src, i);
      AdvanceLiteral(src, s, i);
    }
  }

  /** At the end of the input, a sequence holding a character atom cannot match. */
  lemma {:induction false} NothingLeftToRead(atoms: seq<Atom>, s: string, k: nat)
    requires k < |atoms| && !atoms[k].EndOfInput?
    ensures Advance(atoms, s, |s|) == None
    decreases k
  {
    if !atoms[0].EndOfInput? {
    } else {
      NothingLeftToRead(atoms[1..], s, k - 1);
    }
  }

  /** The pattern up to `$$$$`, and from there on. */
  const CreateFactoryHead: string := "Warning: React.createFactory"
  const CreateFactoryTail: string := "$$$$ is deprecated"

  /** From any position, the part after `$$$$` cannot be matched: a space must follow the end of input. */
  lemma CreateFactoryTailNeverMatches(s: string, j: nat)
    requires j <= |s|
    ensures Advance(Compile(CreateFactoryTail), s, j) == None
  {
    var t := Compile(CreateFactoryTail);
    assert t[0] == EndOfInput;
    if j == |s| {
      assert t[4] == Lit(' ');
      NothingLeftToRead(t, s, 4);
    }
  }

  /**
   * `/Warning: React.createFactory$$$$ is deprecated/` matches no message
   * at all: `$` asserts the end of the input, and a space must follow it.
   */
  lemma CreateFactoryNeverMatches(s: string)
    ensures !RegexTest(CreateFactorySource, s)
  {
    CompileAppend(CreateFactoryHead, CreateFactoryTail);
    forall i: nat | i <= |s| ensures Advance(Compile(CreateFactorySource), s, i).None? {
      AdvanceAppend(Compile(CreateFactoryHead), Compile(CreateFactoryTail), s, i);
      var r := Advance(Compile(CreateFactoryHead), s, i);
      if r.Some? {
        CreateFactoryTailNeverMatches(s, r.value);
      }
    }
  }

  /**
   * The React warning the pattern was written for, with the call's
   * parentheses as plain text: a string entry that `includes` finds.
   */
  const CreateFactoryWarning: string := "Warning: React.createFactory() is deprecated"

  /** The suppression list with the createFactory entry corrected. */
  function SuppressPatternsCorrected(): (r: seq<Pattern>)
    ensures |r| == |SuppressPatterns()| && r[1] == Literal(CreateFactoryWarning)
    ensures forall k :: 0 <= k < |r| && k != 1 ==> r[k] == SuppressPatterns()[k]
  {
    SuppressPatterns()[1 := Literal(CreateFactoryWarning)]
  }

  /** The default configuration with the corrected suppression list. */
  function DefaultConfigCorrected(env: Env): Config {
    DefaultConfig(env).(suppressPatterns := SuppressPatternsCorrected())
  }

  // ---------------------------------------------------------------------
  // The two gates.

  predicate PatternMatches(p: Pattern, message: string) {
    match p
    case Regex(src) => RegexTest(src, message)
    case Literal(text) => Contains(message, text)
  }

  /** `shouldSuppress(message)` (lines 77-89); `message` is None when not a string. */
  predicate ShouldSuppress(config: Config, env: Env, message: Option<string>): (s: bool)
    ensures s ==> !DebugOn(env) && Truthy(message)
    ensures s <==>
      (!DebugOn(env) && Truthy(message) && exists p :: p in config.suppressPatterns && PatternMatches(p, message.value))
  {
    if DebugOn(env) then false
    else if !Truthy(message) then false
    else exists k :: 0 <= k < |config.suppressPatterns| && PatternMatches(config.suppressPatterns[k], message.value)
  }

  /** `shouldLog(level)` (lines 92-99). */
  predicate ShouldLog(config: Config, env: Env, level: LogLevel): (b: bool)
    ensures Production(env) && level == Error ==> b
    ensures !Production(env) && config.minLevel == Silent && level != Silent ==> !b
    ensures !Production(env) && config.minLevel == Debug ==> b
  {
    if Production(env) then config.forceLogsInProduction || DebugOn(env) || level == Error
    else Rank(level) >= Rank(config.minLevel)
  }

  /** A console argument: a string, or anything else. */
  datatype Arg = StrArg(s: string) | OtherArg

  /** `args[0]` as `shouldSuppress` sees it: a string or not. */
  function FirstString(args: seq<Arg>): Option<string> {
    if |args| > 0 && args[0].StrArg? then Some(args[0].s) else None
  }

  function PrefixOf(p: Prefixes, level: LogLevel): string
    requires level != Silent
  {
    match level
    case Debug => p.debug
    case Info => p.info
    case Warn => p.warn
    case Error => p.error
  }

  /** Lines 102-124: the console line a level method writes, if it writes one. */
  function Emit(config: Config, env: Env, level: LogLevel, args: seq<Arg>): (r: Option<seq<Arg>>)
    requires level != Silent
    ensures r.Some? ==> r.value == [StrArg(PrefixOf(config.prefixes, level))] + args
    ensures r.Some? <==> ShouldLog(config, env, level) && !ShouldSuppress(config, env, FirstString(args))
  {
    if ShouldLog(config, env, level) && !ShouldSuppress(config, env, FirstString(args))
    then Some([StrArg(PrefixOf(config.prefixes, level))] + args)
    else None
  }

  /** `class Logger`: the merged configuration and the four level methods. */
  class Logger {
    var config: Config

    /** Lines 62-64. */
    constructor (overrides: PartialConfig, env: Env)
      ensures config == Merge(DefaultConfig(env), overrides)
    {
      config := Merge(DefaultConfig(env), overrides);
    }

    method LogDebug(args: seq<Arg>, env: Env) returns (line: Option<seq<Arg>>)
      ensures line == Emit(config, env, LogLevel.Debug, args)
    {
      line := None;
      if ShouldLog(config, env, LogLevel.Debug) && !ShouldSuppress(config, env, FirstString(args)) {
        line := Some([StrArg(config.prefixes.debug)] + args);
      }
    }

    method LogInfo(args: seq<Arg>, env: Env) returns (line: Option<seq<Arg>>)
      ensures line == Emit(config, env, LogLevel.Info, args)
    {
      line := None;
      if ShouldLog(config, env, LogLevel.Info) && !ShouldSuppress(config, env, FirstString(args)) {
        line := Some([StrArg(config.prefixes.info)] + args);
      }
    }

    method LogWarn(args: seq<Arg>, env: Env) returns (line: Option<seq<Arg>>)
      ensures line == Emit(config, env, LogLevel.Warn, args)
    {
      line := None;
      if ShouldLog(config, env, LogLevel.Warn) && !ShouldSuppress(config, env, FirstString(args)) {
        line := Some([StrArg(config.prefixes.warn)] + args);
      }
    }

    method LogError(args: seq<Arg>, env: Env) returns (line: Option<seq<Arg>>)
      ensures line == Emit(config, env, LogLevel.Error, args)
    {
      line := None;
      if ShouldLog(config, env, LogLevel.Error) && !ShouldSuppress(config, env, FirstString(args)) {
        line := Some([StrArg(config.prefixes.error)] + args);
      }
    }
  }

  // ---------------------------------------------------------------------
  // What the gates promise.

  /** Outside production the levels are ordered: whatever logs, every higher level logs too. */
  lemma LevelsAreOrdered(config: Config, env: Env, l1: LogLevel, l2: LogLevel)
    requires !Production(env) && ShouldLog(config, env, l1) && Rank(l1) <= Rank(l2)
    ensures ShouldLog(config, env, l2)
  {
  }

  /** A minimum level of `none` silences every level method outside production. */
  lemma SilentSilencesAll(config: Config, env: Env, level: LogLevel, args: seq<Arg>)
    requires !Production(env) && config.minLevel == Silent && level != Silent
    ensures Emit(config, env, level, args) == None
  {
  }

  /**
   * With `DEBUG=true` the default logger writes every line it is given,
   * in production or not, whatever the message.
   */
  lemma DebugShowsEverything(env: Env, level: LogLevel, args: seq<Arg>)
    requires DebugOn(env) && level != Silent
    ensures Emit(DefaultConfig(env), env, level, args) == Some([StrArg(PrefixOf(DefaultPrefixes, level))] + args)
  {
  }

  /**
   * In production without `DEBUG`, the default logger writes only errors,
   * and every error whose first argument no pattern suppresses.
   */
  lemma ProductionShowsOnlyErrors(env: Env, level: LogLevel, args: seq<Arg>)
    requires Production(env) && !DebugOn(env) && level != Silent
    ensures Emit(DefaultConfig(env), env, level, args).Some? <==>
      level == Error && !ShouldSuppress(DefaultConfig(env), env, FirstString(args))
  {
  }

  /** Outside production and without `DEBUG`, every level passes and only suppression filters. */
  lemma DevelopmentShowsAllLevels(env: Env, level: LogLevel, args: seq<Arg>)
    requires !Production(env) && !DebugOn(env) && level != Silent
    ensures Emit(DefaultConfig(env), env, level, args).Some? <==> !ShouldSuppress(DefaultConfig(env), env, FirstString(args))
  {
  }

  /** Only a non-empty string first argument can be suppressed: other messages always pass the second gate. */
  lemma OnlyTextIsSuppressed(config: Config, env: Env, args: seq<Arg>)
    requires |args| == 0 || args[0] == OtherArg || args[0] == StrArg("")
    ensures !ShouldSuppress(config, env, FirstString(args))
  {
  }

  /** The mock-client notice of lib/redis.ts:50 is hidden by the default list unless `DEBUG` is on. */
  lemma RedisMockNoticeSuppressed(env: Env, rest: seq<Arg>)
    ensures ShouldSuppress(DefaultConfig(env), env, Some(RedisMockNotice)) <==> !DebugOn(env)
    ensures !DebugOn(env) ==> Emit(DefaultConfig(env), env, Info, [StrArg(RedisMockNotice)] + rest) == None
  {
    var ps := SuppressPatterns();
    assert ps[8] == Regex(RedisMockNotice);
    NoticeMatchesItself();
    assert PatternMatches(ps[8], RedisMockNotice);
    assert FirstString([StrArg(RedisMockNotice)] + rest) == Some(RedisMockNotice);
  }

  lemma NoticeMatchesItself()
    ensures RegexTest(RedisMockNotice, RedisMockNotice)
  {
    assert Plain(RedisMockNotice);
    AdvanceLiteral(RedisMockNotice, RedisMockNotice, 0);
    assert OccursAt(RedisMockNotice, RedisMockNotice, 0);
  }

  /** The corrected list hides the createFactory deprecation warning unless `DEBUG` is on. */
  lemma CorrectedListHidesCreateFactory(env: Env, message: string)
    requires Contains(message, CreateFactoryWarning)
    ensures ShouldSuppress(DefaultConfigCorrected(env), env, Some(message)) <==> !DebugOn(env)
  {
    var ps := SuppressPatternsCorrected();
    assert PatternMatches(ps[1], message);
  }
}
