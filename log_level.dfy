/**
  A model of the console verbosity filter of src/log-level/log-level.ts.

  The module has three parts, in the order of the source file:
  - the level registry: the six console methods, the eight log levels in
    rank order, the `log`-to-`info` equivalence and the rank comparison;
  - the resolution of an arbitrary argument of `setLogLevel` into an
    effective level and the one message that announces it;
  - the live console table: six bindings that `setLogLevel` overwrites with
    gates, each forwarding to a snapshot of the original console that is
    taken once, when the console object is created.
 */
module LogLevel {

  datatype Option<T> = None | Some(value: T)

  /* ---------------------------------------------------------------------- */
  /* Level registry                                                          */
  /* ---------------------------------------------------------------------- */

  /** The eight log-level tokens. */
  datatype Level = All | Trace | Debug | Info | Log | Warn | Error | Silence

  /** The six levels that name a console method (every level but the two sentinels). */
  type ConsoleMethod = l: Level | l != All && l != Silence witness Trace

  /** The gated console methods, in rank order. */
  const ConsoleMethods: seq<ConsoleMethod> := [Trace, Debug, Info, Log, Warn, Error]

  /** Every log level, lowest rank first. */
  const LogLevels: seq<Level> := [All, Trace, Debug, Info, Log, Warn, Error, Silence]

  /** The lower-case token that denotes a level. */
  function Token(l: Level): string
  {
    match l
    case All => "all"
    case Trace => "trace"
    case Debug => "debug"
    case Info => "info"
    case Log => "log"
    case Warn => "warn"
    case Error => "error"
    case Silence => "silence"
  }

  /** The level a string denotes, if it is one of the eight tokens exactly. */
  function LevelOfToken(s: string): (r: Option<Level>)
    ensures r.Some? ==> Token(r.value) == s
    ensures r.None? ==> forall l :: Token(l) != s
  {
    if s == "all" then Some(All)
    else if s == "trace" then Some(Trace)
    else if s == "debug" then Some(Debug)
    else if s == "info" then Some(Info)
    else if s == "log" then Some(Log)
    else if s == "warn" then Some(Warn)
    else if s == "error" then Some(Error)
    else if s == "silence" then Some(Silence)
    else None
  }

  /** Parsing a level's own token gives back that level, so tokens are distinct. */
  lemma TokenRoundTrip(l: Level)
    ensures LevelOfToken(Token(l)) == Some(l)
  {
  }

  /**
    `Array.prototype.indexOf`: the first position of `x` in `s`, or -1 when
    `x` does not occur.
   */
  function IndexOf<T(==)>(s: seq<T>, x: T): (i: int)
    ensures -1 <= i < |s|
    ensures i == -1 <==> x !in s
    ensures 0 <= i ==> s[i] == x && forall j :: 0 <= j < i ==> s[j] != x
  {
    IndexFrom(s, x, 0)
  }

  /** The first position of `x` in `s` at or after `k`, or -1. */
  function IndexFrom<T(==)>(s: seq<T>, x: T, k: nat): (i: int)
    requires k <= |s|
    decreases |s| - k
    ensures -1 <= i < |s|
    ensures i == -1 <==> forall j :: k <= j < |s| ==> s[j] != x
    ensures 0 <= i ==> k <= i && s[i] == x && forall j :: k <= j < i ==> s[j] != x
  {
    if k == |s| then -1
    else if s[k] == x then k
    else IndexFrom(s, x, k + 1)
  }

  /** The rank of a level: its position in the ordering `all < trace < ... < silence`. */
  function Rank(l: Level): nat
  {
    match l
    case All => 0
    case Trace => 1
    case Debug => 2
    case Info => 3
    case Log => 4
    case Warn => 5
    case Error => 6
    case Silence => 7
  }

  /** The rank table agrees with `LOG_LEVELS.indexOf`, which therefore never yields -1. */
  lemma RankIsIndexOf(l: Level)
    ensures Rank(l) == IndexOf(LogLevels, l)
  {
  }

  /**
    `normalizeLogLevel`: `log` is ranked as `info`; every other level is kept.
   */
  function Normalize(l: Level): (r: Level)
    ensures r != Log
    ensures r == l || (l == Log && r == Info)
  {
    if l == Log then Info else l
  }

  /** `shouldLog`: a level passes a threshold when its rank is at least the threshold's. */
  predicate ShouldLog(level: Level, threshold: Level)
  {
    Rank(level) >= Rank(threshold)
  }

  /** Normalization is idempotent. */
  lemma NormalizeIdempotent(l: Level)
    ensures Normalize(Normalize(l)) == Normalize(l)
  {
  }

  /** Normalization identifies exactly `info` with `log` and no other two levels. */
  lemma NormalizeIdentifies(a: Level, b: Level)
    ensures Normalize(a) == Normalize(b) <==> a == b || (a in {Info, Log} && b in {Info, Log})
  {
  }

  /** `ShouldLog` is a total preorder on levels. */
  lemma ShouldLogTotalPreorder(a: Level, b: Level, c: Level)
    ensures ShouldLog(a, a)
    ensures ShouldLog(a, b) || ShouldLog(b, a)
    ensures ShouldLog(a, b) && ShouldLog(b, c) ==> ShouldLog(a, c)
  {
  }

  /** `all` is passed by every level; only `silence` passes `silence`. */
  lemma ShouldLogSentinels(l: Level)
    ensures ShouldLog(l, All)
    ensures ShouldLog(l, Silence) <==> l == Silence
  {
  }

  /* ---------------------------------------------------------------------- */
  /* ASCII case mapping                                                      */
  /* ---------------------------------------------------------------------- */

  predicate IsUpper(c: char) { 'A' <= c <= 'Z' }
  predicate IsLower(c: char) { 'a' <= c <= 'z' }

  function LowerChar(c: char): (r: char)
    ensures IsUpper(c) ==> IsLower(r) && r as int == c as int + 32
    ensures !IsUpper(c) ==> r == c
  {
    if IsUpper(c) then (c as int + 32) as char else c
  }

  function UpperChar(c: char): (r: char)
    ensures IsLower(c) ==> IsUpper(r) && r as int == c as int - 32
    ensures !IsLower(c) ==> r == c
  {
    if IsLower(c) then (c as int - 32) as char else c
  }

  /** `String.prototype.toLowerCase`, restricted to ASCII letters. */
  function ToLower(s: string): (r: string)
    ensures |r| == |s| && forall i :: 0 <= i < |s| ==> r[i] == LowerChar(s[i])
  {
    seq(|s|, i requires 0 <= i < |s| => LowerChar(s[i]))
  }

  /** `String.prototype.toUpperCase`, restricted to ASCII letters. */
  function ToUpper(s: string): (r: string)
    ensures |r| == |s| && forall i :: 0 <= i < |s| ==> r[i] == UpperChar(s[i])
  {
    seq(|s|, i requires 0 <= i < |s| => UpperChar(s[i]))
  }

  /**
    Two strings that are equal up to the case of ASCII letters: at every
    position the characters are equal, or are the upper- and lower-case
    forms of one letter.
   */
  predicate EqualIgnoringCase(s: string, t: string)
  {
    |s| == |t| &&
    forall i :: 0 <= i < |s| ==>
      s[i] == t[i] ||
      (IsUpper(s[i]) && IsLower(t[i]) && t[i] as int == s[i] as int + 32) ||
      (IsLower(s[i]) && IsUpper(t[i]) && s[i] as int == t[i] as int + 32)
  }

  /** Strings equal up to case have the same lower-case form. */
  lemma {:induction false} EqualIgnoringCaseLower(s: string, t: string)
    requires EqualIgnoringCase(s, t)
    ensures ToLower(s) == ToLower(t)
  {
    var ls, lt := ToLower(s), ToLower(t);
    forall i | 0 <= i < |s|
      ensures ls[i] == lt[i]
    {
      assert ls[i] == LowerChar(s[i]) && lt[i] == LowerChar(t[i]);
    }
  }

  /** Upper-casing ignores a prior lower-casing, so the upper-case form of a token is that of the input. */
  lemma UpperOfLower(s: string)
    ensures ToUpper(ToLower(s)) == ToUpper(s)
  {
  }

  /** Lower-casing is idempotent. */
  lemma ToLowerIdempotent(s: string)
    ensures ToLower(ToLower(s)) == ToLower(s)
  {
  }

  /* ---------------------------------------------------------------------- */
  /* Level resolution                                                        */
  /* ---------------------------------------------------------------------- */

  /**
    A JavaScript value passed as an argument. `NonString` stands for null,
    numbers, objects and arrays; it carries the text the value renders to in
    a template literal. `Unrenderable` stands for the values whose
    template-literal conversion throws a `TypeError`: a Symbol, or an object
    with no primitive conversion such as `Object.create(null)`.
   */
  datatype JsValue = Undefined | Str(s: string) | NonString(repr: string) | Unrenderable

  /** A template literal's rendering of a value, or `None` when the conversion throws. */
  function Render(v: JsValue): (r: Option<string>)
    ensures r.None? <==> v.Unrenderable?
    ensures v.Str? ==> r == Some(v.s)
  {
    match v
    case Undefined => Some("undefined")
    case Str(s) => Some(s)
    case NonString(repr) => Some(repr)
    case Unrenderable => None
  }

  /** What `setLogLevel` decides: the effective level, whether the input was valid, the message. */
  datatype Resolution = Resolution(level: Level, valid: bool, message: string)

  const SetPrefix: string := "Log level set to: "

  function InvalidMessage(raw: string): string
  {
    "Invalid log level \"" + raw + "\" provided. Defaulting to: ALL"
  }

  /**
    The resolution in `setLogLevel`: an omitted argument defaults to "all";
    a string is lower-cased and looked up among the level tokens; anything
    else is lower-cased to "" (which is no token). An invalid input falls
    back to `all` with a warning naming the raw argument; when that argument
    cannot be rendered, building the warning throws and there is no result.
   */
  function Resolve(arg: JsValue): (r: Option<Resolution>)
    ensures r.None? <==> arg.Unrenderable?
    ensures arg.Undefined? ==> r == Some(Resolution(All, true, SetPrefix + "ALL"))
    ensures arg.NonString? ==> r == Some(Resolution(All, false, InvalidMessage(arg.repr)))
    ensures arg.Str? ==> r.Some? && (r.value.valid <==> exists l :: Token(l) == ToLower(arg.s))
    ensures arg.Str? && r.Some? && r.value.valid ==>
      Token(r.value.level) == ToLower(arg.s) && r.value.message == SetPrefix + ToUpper(arg.s)
    ensures arg.Str? && r.Some? && !r.value.valid ==>
      r.value.level == All && r.value.message == InvalidMessage(arg.s)
  {
    var param := if arg.Undefined? then Str("all") else arg;
    var text := if param.Str? then param.s else "";
    var lower := ToLower(text);
    UpperOfLower(text);
    var parsed := LevelOfToken(lower);
    var effective := if parsed.Some? then parsed.value else All;
    assert ToUpper(Token(All)) == "ALL";
    assert ToLower("all") == "all" && ToLower("") == "";
    if parsed.Some? then
      Some(Resolution(effective, true, SetPrefix + ToUpper(Token(effective))))
    else
      match Render(param)
      case None => None
      case Some(raw) =>
        assert "Invalid log level \"" + raw + "\" provided. Defaulting to: " + ToUpper(Token(effective)) == InvalidMessage(raw);
        Some(Resolution(effective, false,
          "Invalid log level \"" + raw + "\" provided. Defaulting to: " + ToUpper(Token(effective))))
  }

  /** In any case, a string naming a level resolves to that level with the confirmation message. */
  lemma ResolveToken(s: string, l: Level)
    requires ToLower(s) == Token(l)
    ensures Resolve(Str(s)) == Some(Resolution(l, true, SetPrefix + ToUpper(Token(l))))
  {
    TokenRoundTrip(l);
  }

  /** Strings equal up to case resolve alike; if valid, with the same message too. */
  lemma ResolveCaseInsensitive(s: string, t: string)
    requires EqualIgnoringCase(s, t)
    ensures Resolve(Str(s)).Some? && Resolve(Str(t)).Some?
    ensures Resolve(Str(s)).value.level == Resolve(Str(t)).value.level
    ensures Resolve(Str(s)).value.valid == Resolve(Str(t)).value.valid
    ensures Resolve(Str(s)).value.valid ==> Resolve(Str(s)).value.message == Resolve(Str(t)).value.message
  {
    EqualIgnoringCaseLower(s, t);
  }

  /** The inputs the source treats as invalid: the empty string and an unknown token. */
  lemma ResolveInvalidStrings()
    ensures Resolve(Str("")) == Some(Resolution(All, false, InvalidMessage("")))
    ensures Resolve(Str("INVALID_LEVEL")) == Some(Resolution(All, false, InvalidMessage("INVALID_LEVEL")))
  {
  }

  /* ---------------------------------------------------------------------- */
  /* Gate decision                                                           */
  /* ---------------------------------------------------------------------- */

  /**
    Whether the gate installed for method `m` under effective level `effective`
    forwards. The method's level is normalized; the effective level is not.
   */
  predicate Forwards(effective: Level, m: ConsoleMethod)
  {
    ShouldLog(Normalize(m), effective)
  }

  /**
    Reference table: the position in `ConsoleMethods` from which methods
    forward under each effective level.
   */
  function ActiveFrom(effective: Level): nat
  {
    match effective
    case All => 0
    case Trace => 0
    case Debug => 1
    case Info => 2
    case Log => 4
    case Warn => 4
    case Error => 5
    case Silence => 6
  }

  /** The forwarding methods are exactly the suffix of `ConsoleMethods` that starts at `ActiveFrom`. */
  lemma ForwardsSuffix(effective: Level, i: nat)
    requires i < |ConsoleMethods|
    ensures Forwards(effective, ConsoleMethods[i]) <==> ActiveFrom(effective) <= i
  {
  }

  /**
    For `trace`, `debug`, `info`, `warn` and `error` forwarding starts at that
    very method; `all` forwards all six and `silence` none. For `log` it
    starts at `warn`, because the effective level is compared unnormalized.
   */
  lemma ActiveFromMethod(effective: Level)
    ensures effective in {Trace, Debug, Info, Warn, Error} ==>
      ActiveFrom(effective) == IndexOf(ConsoleMethods, effective)
    ensures effective == Log ==> ActiveFrom(effective) == IndexOf(ConsoleMethods, Warn)
    ensures effective == All ==> ActiveFrom(effective) == 0
    ensures effective == Silence ==> ActiveFrom(effective) == |ConsoleMethods|
  {
  }

  /** Under `info`, both `info` and `log` forward, and `trace` and `debug` do not. */
  lemma InfoEqualsLogUnderInfo()
    ensures Forwards(Info, Info) && Forwards(Info, Log)
    ensures !Forwards(Info, Trace) && !Forwards(Info, Debug)
    ensures Forwards(Info, Warn) && Forwards(Info, Error)
  {
  }

  /** Under `log`, neither `info` nor `log` forwards; `warn` and `error` do. */
  lemma LogLevelSuppressesInfoAndLog()
    ensures !Forwards(Log, Info) && !Forwards(Log, Log)
    ensures Forwards(Log, Warn) && Forwards(Log, Error)
  {
  }

  /* ---------------------------------------------------------------------- */
  /* The console table                                                       */
  /* ---------------------------------------------------------------------- */

  /**
    What a live `console[method]` entry is bound to: the host's own function,
    or a gate closed over the method's normalized level and the effective
    level of the `setLogLevel` call that installed it.
   */
  datatype Binding = Native | Gate(methodLevel: Level, effective: Level)

  /** Whether calling a binding reaches the original function (when there is one). */
  predicate Passes(b: Binding)
  {
    match b
    case Native => true
    case Gate(methodLevel, effective) => ShouldLog(methodLevel, effective)
  }

  /** One invocation of an original console function, with its arguments. */
  datatype Emission = Emission(target: ConsoleMethod, args: seq<JsValue>)

  /** The table one `setLogLevel` call installs under effective level `effective`. */
  function InstalledTable(effective: Level): (t: map<ConsoleMethod, Binding>)
    ensures forall m: ConsoleMethod :: m in t && t[m] == Gate(Normalize(m), effective)
  {
    map m | m in ConsoleMethods :: Gate(Normalize(m), effective)
  }

  /** The table before any `setLogLevel`: every entry is the host's own function. */
  const NativeTable: map<ConsoleMethod, Binding> := map m | m in ConsoleMethods :: Native

  /** A gate of an installed table passes exactly when `Forwards` says so. */
  lemma InstalledGatePasses(effective: Level, m: ConsoleMethod)
    ensures Passes(InstalledTable(effective)[m]) <==> Forwards(effective, m)
  {
  }

  /**
    The process console. `snapshot` is the set of methods the original
    console had when it was cloned; it is fixed at construction and every
    gate forwards to it. `table` holds the live `console[method]` bindings,
    and `output` records, in order, every invocation that reached an
    original function.
   */
  class Console {
    const snapshot: set<ConsoleMethod>
    var table: map<ConsoleMethod, Binding>
    var output: seq<Emission>

    /** Every method is bound, and every gate was closed over its own method's level. */
    ghost predicate Valid()
      reads this
    {
      (forall m: ConsoleMethod :: m in table) &&
      (forall m | m in table && table[m].Gate? :: table[m].methodLevel == Normalize(m))
    }

    /** The console before any `setLogLevel`: every entry is the host's own function. */
    constructor (originals: set<ConsoleMethod>)
      ensures Valid()
      ensures snapshot == originals && output == []
      ensures table == NativeTable
      ensures forall m: ConsoleMethod :: m in table && table[m] == Native
    {
      snapshot := originals;
      table := NativeTable;
      output := [];
    }

    /**
      `setLogLevel(arg)`. Building the message throws when the argument
      cannot be rendered; the message goes to the original `info`, and if the
      snapshot has no `info`, that call throws. In both cases nothing else
      happens. Otherwise all six entries are replaced by gates under the
      resolved level, whatever the table held before.
     */
    method SetLogLevel(arg: JsValue) returns (threw: bool)
      requires Valid()
      modifies this`table, this`output
      ensures Valid()
      ensures threw <==> arg.Unrenderable? || Info !in snapshot
      ensures threw ==> table == old(table) && output == old(output)
      ensures !threw ==> output == old(output) + [Emission(Info, [Str(Resolve(arg).value.message)])]
      ensures !threw ==> table == InstalledTable(Resolve(arg).value.level)
    {
      var r := Resolve(arg);
      if r.None? || Info !in snapshot {
        return true;
      }
      var res := r.value;
      output := output + [Emission(Info, [Str(res.message)])];
      var i := 0;
      while i < |ConsoleMethods|
        invariant 0 <= i <= |ConsoleMethods|
        invariant Valid()
        invariant output == old(output) + [Emission(Info, [Str(res.message)])]
        invariant forall j :: 0 <= j < i ==>
          table[ConsoleMethods[j]] == Gate(Normalize(ConsoleMethods[j]), res.level)
      {
        var m := ConsoleMethods[i];
        var methodLevel := Normalize(m);
        table := table[m := Gate(methodLevel, res.level)];
        i := i + 1;
      }
      threw := false;
    }

    /**
      `console[m](...args)`. The call reaches the original function at most
      once, with the same arguments, when the binding passes and the
      original exists; otherwise nothing is recorded.
     */
    method Call(m: ConsoleMethod, args: seq<JsValue>) returns (forwarded: bool)
      requires Valid()
      modifies this`output
      ensures forwarded <==> Passes(table[m]) && m in snapshot
      ensures output == old(output) + (if forwarded then [Emission(m, args)] else [])
    {
      match table[m] {
        case Native =>
          forwarded := m in snapshot;
        case Gate(methodLevel, effective) =>
          forwarded := ShouldLog(methodLevel, effective) && m in snapshot;
      }
      if forwarded {
        output := output + [Emission(m, args)];
      }
    }
  }

  /* ---------------------------------------------------------------------- */
  /* Clients: calling every method in turn                                   */
  /* ---------------------------------------------------------------------- */

  /** The six methods, as a set: a console that has all of them. */
  const AllMethods: set<ConsoleMethod> := set m | m in ConsoleMethods

  /** One call with `args` of each method in `ms`, in order. */
  function EmissionsOf(ms: seq<ConsoleMethod>, args: seq<JsValue>): (r: seq<Emission>)
    ensures |r| == |ms| && forall i :: 0 <= i < |ms| ==> r[i] == Emission(ms[i], args)
  {
    seq(|ms|, i requires 0 <= i < |ms| => Emission(ms[i], args))
  }

  /** The emissions that calling each method of `ms` in order with `args` records. */
  function ForwardedCalls(table: map<ConsoleMethod, Binding>, snapshot: set<ConsoleMethod>,
                          ms: seq<ConsoleMethod>, args: seq<JsValue>): (r: seq<Emission>)
    requires forall m: ConsoleMethod :: m in table
    ensures |r| <= |ms|
    ensures forall e | e in r :: e.target in ms && e.args == args
  {
    if ms == [] then []
    else
      var last := ms[|ms| - 1];
      ForwardedCalls(table, snapshot, ms[..|ms| - 1], args) +
      (if Passes(table[last]) && last in snapshot then [Emission(last, args)] else [])
  }

  /** Appending a method appends its call. */
  lemma EmissionsOfSnoc(ms: seq<ConsoleMethod>, m: ConsoleMethod, args: seq<JsValue>)
    ensures EmissionsOf(ms + [m], args) == EmissionsOf(ms, args) + [Emission(m, args)]
  {
    var l, r := EmissionsOf(ms + [m], args), EmissionsOf(ms, args) + [Emission(m, args)];
    forall i | 0 <= i < |l| ensures l[i] == r[i] {
      if i < |ms| {
        assert (ms + [m])[i] == ms[i];
      }
    }
  }

  /**
    When the calls that get through are exactly those from position `a` on,
    calling each method of `ms` in order records one call of each of
    `ms[a..]`, in order, and nothing else.
   */
  lemma {:induction false} ForwardedCallsSuffix(table: map<ConsoleMethod, Binding>, snapshot: set<ConsoleMethod>,
                                                ms: seq<ConsoleMethod>, args: seq<JsValue>, a: nat)
    requires forall m: ConsoleMethod :: m in table
    requires forall i :: 0 <= i < |ms| ==> (Passes(table[ms[i]]) && ms[i] in snapshot <==> a <= i)
    ensures ForwardedCalls(table, snapshot, ms, args) == EmissionsOf(ms[if a <= |ms| then a else |ms|..], args)
  {
    if ms != [] {
      var n := |ms| - 1;
      var init := ms[..n];
      assert forall i :: 0 <= i < |init| ==> init[i] == ms[i];
      ForwardedCallsSuffix(table, snapshot, init, args, a);
      if a <= n {
        assert ms[a..] == init[a..] + [ms[n]];
        EmissionsOfSnoc(init[a..], ms[n], args);
      }
    }
  }

  /**
    The level in force after `setLogLevel(arg)` on a console whose snapshot
    has `info`, when `prev` was in force (`None`: no configuration yet). On
    such a console the call throws only for an `Unrenderable` argument, and
    then changes nothing.
   */
  function LevelInForce(prev: Option<Level>, arg: JsValue): Option<Level>
  {
    match Resolve(arg)
    case None => prev
    case Some(res) => Some(res.level)
  }

  /** The live table on a console where `inForce` is the level in force. */
  function LiveTable(inForce: Option<Level>): map<ConsoleMethod, Binding>
  {
    match inForce
    case None => NativeTable
    case Some(l) => InstalledTable(l)
  }

  /** The position from which calls get through: every call does before any configuration. */
  function ForwardingFrom(inForce: Option<Level>): nat
  {
    match inForce
    case None => 0
    case Some(l) => ActiveFrom(l)
  }

  /** The one message that a `setLogLevel(arg)` on a console with an `info` emits, if it does not throw. */
  function Announcement(arg: JsValue): seq<Emission>
  {
    match Resolve(arg)
    case None => []
    case Some(res) => [Emission(Info, [Str(res.message)])]
  }

  /** On a live table with a complete snapshot, the calls that get through are those from `ForwardingFrom` on. */
  lemma LiveCallsThrough(inForce: Option<Level>, i: nat)
    requires i < |ConsoleMethods|
    ensures Passes(LiveTable(inForce)[ConsoleMethods[i]]) && ConsoleMethods[i] in AllMethods
      <==> ForwardingFrom(inForce) <= i
  {
    if inForce.Some? {
      ForwardsSuffix(inForce.value, i);
      InstalledGatePasses(inForce.value, ConsoleMethods[i]);
    }
  }

  /**
    On a live table with a complete snapshot, calling the six methods in
    order records one call of each method from `ForwardingFrom` on.
   */
  lemma LiveForwardedCalls(inForce: Option<Level>, args: seq<JsValue>)
    ensures ForwardingFrom(inForce) <= |ConsoleMethods|
    ensures ForwardedCalls(LiveTable(inForce), AllMethods, ConsoleMethods, args) ==
      EmissionsOf(ConsoleMethods[ForwardingFrom(inForce)..], args)
  {
    var t := LiveTable(inForce);
    forall i | 0 <= i < |ConsoleMethods|
      ensures Passes(t[ConsoleMethods[i]]) && ConsoleMethods[i] in AllMethods <==> ForwardingFrom(inForce) <= i
    {
      LiveCallsThrough(inForce, i);
    }
    ForwardedCallsSuffix(t, AllMethods, ConsoleMethods, args, ForwardingFrom(inForce));
  }

  /**
    Calls each method of `ms` once, in order, with the same arguments, as
    the test helper does over the six methods, and reports which calls
    reached the original.
   */
  method ProbeAll(c: Console, ms: seq<ConsoleMethod>, args: seq<JsValue>) returns (forwarded: seq<bool>)
    requires c.Valid()
    modifies c`output
    ensures c.Valid()
    ensures |forwarded| == |ms|
    ensures forall i :: 0 <= i < |ms| ==>
      (forwarded[i] <==> Passes(c.table[ms[i]]) && ms[i] in c.snapshot)
    ensures c.output == old(c.output) + ForwardedCalls(c.table, c.snapshot, ms, args)
  {
    forwarded := [];
    var i := 0;
    while i < |ms|
      invariant 0 <= i <= |ms|
      invariant c.Valid()
      invariant |forwarded| == i
      invariant forall j :: 0 <= j < i ==>
        (forwarded[j] <==> Passes(c.table[ms[j]]) && ms[j] in c.snapshot)
      invariant c.output == old(c.output) + ForwardedCalls(c.table, c.snapshot, ms[..i], args)
    {
      var f := c.Call(ms[i], args);
      assert ms[..i + 1][..i] == ms[..i];
      forwarded := forwarded + [f];
      i := i + 1;
    }
    assert ms[..i] == ms;
  }

  /**
    Calling the six methods in order on a console with a complete snapshot
    whose table is the live table for `inForce` forwards exactly the methods
    from `ForwardingFrom(inForce)` on, once each.
   */
  method ProbeLive(c: Console, ghost inForce: Option<Level>, args: seq<JsValue>) returns (forwarded: seq<bool>)
    requires c.Valid() && c.table == LiveTable(inForce) && c.snapshot == AllMethods
    modifies c`output
    ensures c.Valid() && c.table == LiveTable(inForce)
    ensures ForwardingFrom(inForce) <= |ConsoleMethods|
    ensures |forwarded| == |ConsoleMethods|
    ensures forall i :: 0 <= i < |ConsoleMethods| ==> (forwarded[i] <==> ForwardingFrom(inForce) <= i)
    ensures c.output == old(c.output) + EmissionsOf(ConsoleMethods[ForwardingFrom(inForce)..], args)
  {
    forwarded := ProbeAll(c, ConsoleMethods, args);
    forall i | 0 <= i < |ConsoleMethods|
      ensures forwarded[i] <==> ForwardingFrom(inForce) <= i
    {
      LiveCallsThrough(inForce, i);
    }
    LiveForwardedCalls(inForce, args);
  }

  /**
    A fresh console with all six originals, one `setLogLevel(arg)`, then one
    call of each method: after the message, if any, the methods from
    `ForwardingFrom` of the level in force on forward, once each and with the
    same arguments. When the call threw, all six still reach the host.
   */
  method SetThenProbe(arg: JsValue, args: seq<JsValue>) returns (forwarded: seq<bool>, output: seq<Emission>)
    ensures |forwarded| == |ConsoleMethods|
    ensures forall i :: 0 <= i < |ConsoleMethods| ==>
      (forwarded[i] <==> ForwardingFrom(LevelInForce(None, arg)) <= i)
    ensures output == Announcement(arg) +
      EmissionsOf(ConsoleMethods[ForwardingFrom(LevelInForce(None, arg))..], args)
  {
    var c := new Console(AllMethods);
    ghost var inForce := LevelInForce(None, arg);
    assert Info in AllMethods by { assert ConsoleMethods[2] == Info; }
    var threw := c.SetLogLevel(arg);
    assert c.output == Announcement(arg);
    assert c.table == LiveTable(inForce);
    forwarded := ProbeLive(c, inForce, args);
    output := c.output;
  }

  /**
    Two `setLogLevel` calls in a row: the gates behave as under the last
    call that did not throw, with no trace of an earlier one; each call that
    did not throw emits its message.
   */
  method ReconfigureThenProbe(first: JsValue, second: JsValue, args: seq<JsValue>)
    returns (forwarded: seq<bool>, output: seq<Emission>)
    ensures |forwarded| == |ConsoleMethods|
    ensures forall i :: 0 <= i < |ConsoleMethods| ==>
      (forwarded[i] <==> ForwardingFrom(LevelInForce(LevelInForce(None, first), second)) <= i)
    ensures output == Announcement(first) + Announcement(second) +
      EmissionsOf(ConsoleMethods[ForwardingFrom(LevelInForce(LevelInForce(None, first), second))..], args)
  {
    var c := new Console(AllMethods);
    ghost var inForce1 := LevelInForce(None, first);
    ghost var inForce2 := LevelInForce(inForce1, second);
    assert Info in AllMethods by { assert ConsoleMethods[2] == Info; }
    var threw := c.SetLogLevel(first);
    assert c.output == Announcement(first);
    assert c.table == LiveTable(inForce1);
    threw := c.SetLogLevel(second);
    assert c.output == Announcement(first) + Announcement(second);
    assert c.table == LiveTable(inForce2);
    forwarded := ProbeLive(c, inForce2, args);
    output := c.output;
  }
}
