/** The /httpblockinfo command: argument checks, Java's Integer.parseInt for
    the coordinates, the choice of extra data, and the one report it sends. */
module Command {
  import opened Common
  import opened Plugin
  import Attributes

  const COMMAND_NAME: string := "httpblockinfo"

  /** The detail of the exception List.get(0) throws on the empty world list. */
  const NO_WORLD_DETAIL: string := "Index 0 out of bounds for length 0"

  predicate IsDigit(c: char) {
    '0' <= c <= '9'
  }

  predicate AllDigits(s: string) {
    forall i :: 0 <= i < |s| ==> IsDigit(s[i])
  }

  function DigitValue(c: char): nat
    requires IsDigit(c)
  {
    c as int - '0' as int
  }

  function DigitChar(d: nat): (c: char)
    requires d < 10
    ensures IsDigit(c) && DigitValue(c) == d
  {
    (d + '0' as int) as char
  }

  /** The number a run of decimal digits spells, most significant first. */
  function DigitsValue(s: string): nat
    requires AllDigits(s)
  {
    if s == [] then 0 else DigitsValue(s[..|s| - 1]) * 10 + DigitValue(s[|s| - 1])
  }

  /** What follows an optional leading sign. */
  function Magnitude(s: string): (m: string)
    requires |s| > 0
    ensures |m| == if s[0] == '-' || s[0] == '+' then |s| - 1 else |s|
  {
    if s[0] == '-' || s[0] == '+' then s[1..] else s
  }

  /** The value a sign and a run of digits spell, before the int range check. */
  function SignedValue(s: string): int
    requires |s| > 0 && AllDigits(Magnitude(s))
  {
    if s[0] == '-' then -(DigitsValue(Magnitude(s)) as int) else DigitsValue(Magnitude(s))
  }

  /** Integer.parseInt(s): an optional '-' or '+', then one or more decimal
      digits whose value is an int. Anything else is a NumberFormatException. */
  function ParseInt(s: string): (r: Option<int>)
    ensures r.Some? <==> |s| > 0 && |Magnitude(s)| > 0 && AllDigits(Magnitude(s)) && IsInt32(SignedValue(s))
    ensures r.Some? ==> r.value == SignedValue(s)
    ensures r.Some? ==> IsInt32(r.value)
    ensures |s| == 0 ==> r.None?
    ensures |s| > 0 && s[0] != '-' && s[0] != '+' && !IsDigit(s[0]) ==> r.None?
    ensures (exists i :: 0 < i < |s| && !IsDigit(s[i])) ==> r.None?
    ensures r.Some? && s[0] == '-' ==> r.value <= 0
    ensures r.Some? && s[0] != '-' ==> r.value >= 0
  {
    if |s| == 0 then None
    else
      var signed := s[0] == '-' || s[0] == '+';
      var digits := if signed then s[1..] else s;
      if |digits| == 0 || !AllDigits(digits) then None
      else
        var v: int := if s[0] == '-' then -(DigitsValue(digits) as int) else DigitsValue(digits);
        if IsInt32(v) then Some(v) else None
  }

  /** The decimal digits of n with no leading zero. */
  function NatDigits(n: nat): (s: string)
    ensures |s| > 0 && AllDigits(s)
  {
    if n < 10 then [DigitChar(n)] else NatDigits(n / 10) + [DigitChar(n % 10)]
  }

  /** Integer.toString(n), which the confirmation message uses for x, y, z. */
  function ShowInt(n: int): string {
    if n < 0 then "-" + NatDigits(-n) else NatDigits(n)
  }

  lemma {:induction false} NatDigitsValue(n: nat)
    ensures DigitsValue(NatDigits(n)) == n
  {
    if n >= 10 {
      var s := NatDigits(n);
      assert s[..|s| - 1] == NatDigits(n / 10);
      NatDigitsValue(n / 10);
    }
  }

  /** parseInt reads back every int that toString writes. */
  lemma ParseShow(n: int)
    requires IsInt32(n)
    ensures ParseInt(ShowInt(n)) == Some(n)
  {
    if n < 0 {
      ParseShowNegative(n);
    } else {
      NatDigitsValue(n);
    }
  }

  lemma ParseShowNegative(n: int)
    requires IsInt32(n) && n < 0
    ensures ParseInt(ShowInt(n)) == Some(n)
  {
    var ds := NatDigits(-n);
    var s := ShowInt(n);
    assert s == "-" + ds;
    assert s[0] == '-' && s[1..] == ds;
    NatDigitsValue(-n);
    assert -(DigitsValue(ds) as int) == n;
  }

  /** A sign on its own is refused. */
  lemma ParseLoneSign()
    ensures ParseInt("-") == None && ParseInt("+") == None
  {
  }

  /** A negative number below the int range is refused, not wrapped. */
  lemma {:induction false} ParseRejectsUnderflow(ds: string)
    requires |ds| > 0 && AllDigits(ds) && DigitsValue(ds) > -INT_MIN
    ensures ParseInt("-" + ds) == None
  {
    assert ("-" + ds)[1..] == ds;
  }

  /** An unsigned run of digits parses to its value when that is an int. */
  lemma {:induction false} ParseDigits(ds: string)
    requires |ds| > 0 && AllDigits(ds)
    ensures ParseInt(ds) == if IsInt32(DigitsValue(ds)) then Some(DigitsValue(ds) as int) else None
  {
    assert IsDigit(ds[0]);
    assert Magnitude(ds) == ds;
  }

  /** A signed run of digits parses to its signed value when that is an int. */
  lemma {:induction false} ParseSigned(c: char, ds: string)
    requires c == '-' || c == '+'
    requires |ds| > 0 && AllDigits(ds)
    ensures var v := if c == '-' then -(DigitsValue(ds) as int) else DigitsValue(ds) as int;
      ParseInt([c] + ds) == if IsInt32(v) then Some(v) else None
  {
    var s := [c] + ds;
    assert s[0] == c && s[1..] == ds;
    assert Magnitude(s) == ds && SignedValue(s) == if c == '-' then -(DigitsValue(ds) as int) else DigitsValue(ds) as int;
  }

  /** A leading '+' changes nothing, and "-0" is zero. */
  lemma {:induction false} ParsePlusSign(ds: string)
    requires |ds| > 0 && AllDigits(ds)
    ensures ParseInt("+" + ds) == ParseInt(ds)
    ensures DigitsValue(ds) == 0 ==> ParseInt("-" + ds) == Some(0)
  {
    ParseDigits(ds);
    ParseSigned('+', ds);
    ParseSigned('-', ds);
  }

  /** Leading zeros do not change the value a run of digits spells. */
  lemma {:induction false} LeadingZeroValue(ds: string)
    requires AllDigits(ds)
    ensures AllDigits("0" + ds) && DigitsValue("0" + ds) == DigitsValue(ds)
  {
    var s := "0" + ds;
    if ds != [] {
      assert s[..|s| - 1] == "0" + ds[..|ds| - 1];
      assert s[|s| - 1] == ds[|ds| - 1];
      LeadingZeroValue(ds[..|ds| - 1]);
    }
  }

  /** So "007" parses as 7. */
  lemma {:induction false} ParseLeadingZero(ds: string)
    requires |ds| > 0 && AllDigits(ds)
    ensures ParseInt("0" + ds) == ParseInt(ds)
  {
    LeadingZeroValue(ds);
    ParseDigits(ds);
    ParseDigits("0" + ds);
  }

  /** Two runs of digits of the same value parse alike after a '-'. */
  lemma {:induction false} ParseNegativeSameValue(a: string, b: string)
    requires |a| > 0 && AllDigits(a) && |b| > 0 && AllDigits(b)
    requires DigitsValue(a) == DigitsValue(b)
    ensures ParseInt(['-'] + a) == ParseInt(['-'] + b)
  {
    ParseSigned('-', a);
    ParseSigned('-', b);
  }

  /** And "-007" as -7. */
  lemma {:induction false} ParseNegativeLeadingZero(ds: string)
    requires |ds| > 0 && AllDigits(ds)
    ensures ParseInt("-0" + ds) == ParseInt("-" + ds)
  {
    LeadingZeroValue(ds);
    ParseNegativeSameValue("0" + ds, ds);
    assert "-0" + ds == ['-'] + ("0" + ds);
    assert "-" + ds == ['-'] + ds;
  }

  /** A run of digits too large for an int is refused, not wrapped. */
  lemma ParseRejectsOverflow(s: string)
    requires |s| > 0 && AllDigits(s) && DigitsValue(s) > INT_MAX
    ensures ParseInt(s) == None
  {
  }

  /** Who runs the command: a player stands in a world; any other sender
      (the console, a command block) does not. */
  datatype Sender = PlayerSender(world: string) | OtherSender

  /** What Bukkit.selectEntities yields for a selector: the names of the
      entities it matches, in order, or the message of the exception it
      throws for a malformed selector. */
  datatype Selection = Entities(names: seq<string>) | SelectorError(detail: string)

  /** The kinds of chat message the command sends back. */
  datatype Message =
    | Usage
    | InvalidCoordinates
    | NoMatch(token: string)
    | Confirmation(x: int, y: int, z: int, extra: Option<Value>)
    | ErrorOccurred(detail: string)

  /** The one sendBlockData call a successful command makes. */
  datatype Send = Send(loc: Location, extra: Option<Value>)

  /** onCommand's return value, the messages it sends, and its report. */
  datatype Outcome = Outcome(handled: bool, messages: seq<Message>, send: Option<Send>)

  /** The extra data chosen from the fourth argument, with the warning
      that goes with it, or the failure of the selector lookup. */
  datatype Pick = Picked(extra: Option<Value>, warnings: seq<Message>) | Failed(detail: string)

  predicate IsSelector(token: string) {
    |token| > 0 && token[0] == '@'
  }

  function PickExtra(token: Option<string>, select: string -> Selection): (p: Pick)
    // only a selector that matches nothing warns, and then once
    ensures p.Picked? && p.warnings != [] ==>
      token.Some? && IsSelector(token.value) && select(token.value) == Entities([]) && p.warnings == [NoMatch(token.value)]
    ensures p.Failed? <==> token.Some? && IsSelector(token.value) && select(token.value).SelectorError?
  {
    if token.None? then Picked(None, [])
    else if !IsSelector(token.value) then Picked(Some(Str(token.value)), [])
    else
      match select(token.value)
      case SelectorError(detail) => Failed(detail)
      case Entities(names) =>
        if |names| > 0 then Picked(Some(StrList(names)), [])
        else Picked(Some(Str(token.value)), [NoMatch(token.value)])
  }

  /** The world of the command's location: the player's own, otherwise the
      server's first world. */
  function TargetWorld(sender: Sender, worlds: seq<string>): Option<string> {
    if sender.PlayerSender? then Some(sender.world)
    else if |worlds| > 0 then Some(worlds[0])
    else None
  }

  /** The optional fourth argument, the extra data or a selector. */
  function ExtraToken(args: seq<string>): Option<string> {
    if |args| == 4 then Some(args[3]) else None
  }

  predicate WellFormedArgs(args: seq<string>) {
    3 <= |args| <= 4 && ParseInt(args[0]).Some? && ParseInt(args[1]).Some? && ParseInt(args[2]).Some?
  }

  /** onCommand for the command `name` with arguments `args`, as the
      outcome it produces. */
  function Evaluate(sender: Sender, name: string, args: seq<string>, worlds: seq<string>, select: string -> Selection): (r: Outcome)
    // only this command is handled; the others are left to the server
    ensures r.handled <==> EqualsIgnoreCase(name, COMMAND_NAME)
    ensures !r.handled ==> r.messages == [] && r.send.None?
    // a wrong argument count gives the usage line and nothing else
    ensures r.handled && (|args| < 3 || |args| > 4) ==> r.messages == [Usage] && r.send.None?
    // a coordinate that is not an int gives the coordinates error and nothing else
    ensures r.handled && 3 <= |args| <= 4 && (exists i :: 0 <= i < 3 && ParseInt(args[i]).None?) ==>
      r.messages == [InvalidCoordinates] && r.send.None?
    // a report is sent exactly when the arguments are good, the selector
    // (if any) resolves, and there is a world to put the location in
    ensures r.send.Some? <==>
      r.handled && WellFormedArgs(args)
      && PickExtra(ExtraToken(args), select).Picked?
      && TargetWorld(sender, worlds).Some?
    // the report is for the parsed coordinates, in the sender's world
    ensures r.send.Some? ==>
      && r.send.value.loc == Location(TargetWorld(sender, worlds).value, ParseInt(args[0]).value, ParseInt(args[1]).value, ParseInt(args[2]).value)
      && r.send.value.extra == PickExtra(ExtraToken(args), select).extra
      && |r.messages| > 0
      && r.messages[|r.messages| - 1] == Confirmation(r.send.value.loc.x, r.send.value.loc.y, r.send.value.loc.z, r.send.value.extra)
    // a send says only the selector warning, if any, and the confirmation
    ensures r.send.Some? ==>
      r.messages == PickExtra(ExtraToken(args), select).warnings
        + [Confirmation(r.send.value.loc.x, r.send.value.loc.y, r.send.value.loc.z, r.send.value.extra)]
    // every failure after the argument checks is reported as one error
    ensures r.handled && WellFormedArgs(args) && r.send.None? ==>
      |r.messages| > 0 && r.messages[|r.messages| - 1].ErrorOccurred?
    ensures r.handled && WellFormedArgs(args) && PickExtra(ExtraToken(args), select).Failed? ==>
      r.messages == [ErrorOccurred(PickExtra(ExtraToken(args), select).detail)]
    ensures r.handled && WellFormedArgs(args) && PickExtra(ExtraToken(args), select).Picked? && TargetWorld(sender, worlds).None? ==>
      r.messages == PickExtra(ExtraToken(args), select).warnings + [ErrorOccurred(NO_WORLD_DETAIL)]
  {
    if !EqualsIgnoreCase(name, COMMAND_NAME) then Outcome(false, [], None)
    else if |args| < 3 || |args| > 4 then Outcome(true, [Usage], None)
    else
      var x, y, z := ParseInt(args[0]), ParseInt(args[1]), ParseInt(args[2]);
      if x.None? || y.None? || z.None? then Outcome(true, [InvalidCoordinates], None)
      else
        match PickExtra(ExtraToken(args), select)
        case Failed(detail) => Outcome(true, [ErrorOccurred(detail)], None)
        case Picked(extra, warnings) =>
          match TargetWorld(sender, worlds)
          case None => Outcome(true, warnings + [ErrorOccurred(NO_WORLD_DETAIL)], None)
          case Some(world) =>
            var loc := Location(world, x.value, y.value, z.value);
            Outcome(true, warnings + [Confirmation(x.value, y.value, z.value, extra)], Some(Send(loc, extra)))
  }

  /** The extra data of a sent report, case by case on the fourth argument. */
  lemma ExtraDataChoice(sender: Sender, name: string, args: seq<string>, worlds: seq<string>, select: string -> Selection)
    requires Evaluate(sender, name, args, worlds, select).send.Some?
    ensures var r := Evaluate(sender, name, args, worlds, select);
      && (|args| == 3 ==> r.send.value.extra == None)
      && (|args| == 4 && !IsSelector(args[3]) ==> r.send.value.extra == Some(Str(args[3])))
      && (|args| == 4 && IsSelector(args[3]) && select(args[3]).Entities? && |select(args[3]).names| > 0 ==>
            r.send.value.extra == Some(StrList(select(args[3]).names)))
      && (|args| == 4 && IsSelector(args[3]) && select(args[3]) == Entities([]) ==>
            r.send.value.extra == Some(Str(args[3])) && r.messages == [NoMatch(args[3]), r.messages[1]])
  {
  }

  /** A selector that matches nothing warns before the confirmation even
      when no report can be sent. */
  lemma NoMatchWarns(sender: Sender, name: string, args: seq<string>, worlds: seq<string>, select: string -> Selection)
    requires EqualsIgnoreCase(name, COMMAND_NAME) && WellFormedArgs(args)
    requires |args| == 4 && IsSelector(args[3]) && select(args[3]) == Entities([])
    ensures var r := Evaluate(sender, name, args, worlds, select);
      |r.messages| == 2 && r.messages[0] == NoMatch(args[3])
  {
  }

  /** The command's executor, bound to the plugin it reports through. */
  class HttpBlockInfoCommand {
    const plugin: McBlockReporterPlugin

    constructor (plugin: McBlockReporterPlugin)
      ensures this.plugin == plugin
    {
      this.plugin := plugin;
    }

    /** Runs the command: the plugin sends the one report Evaluate decides
        on, through its command channel, and nothing else changes. */
    method OnCommand(sender: Sender, name: string, args: seq<string>, worlds: seq<string>, select: string -> Selection, server: Server)
      returns (handled: bool, messages: seq<Message>)
      modifies plugin
      ensures var r := Evaluate(sender, name, args, worlds, select);
        && handled == r.handled && messages == r.messages
        && plugin.outbox == old(plugin.outbox) +
          (if r.send.Some? then [Request(plugin.endpoints.commandReportUrl, ToUpper(plugin.endpoints.commandReportMethod),
            Single(Attributes.Snapshot(r.send.value.loc, r.send.value.extra, server.blockAt(r.send.value.loc), plugin.monitoredBlockIndexMap)))]
          else [])
      ensures plugin.endpoints == old(plugin.endpoints) && plugin.monitoredBlockIndexMap == old(plugin.monitoredBlockIndexMap)
      ensures plugin.updateCooldownLocations == old(plugin.updateCooldownLocations)
    {
      var r := Evaluate(sender, name, args, worlds, select);
      if r.send.Some? {
        plugin.SendBlockData(r.send.value.loc, r.send.value.extra, server);
      }
      handled, messages := r.handled, r.messages;
    }
  }
}
