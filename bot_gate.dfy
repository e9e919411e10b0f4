/**
  The gate every chat command passes through before it runs: a per-command,
  per-user cooldown kept in a map of maps that is updated in place, followed by
  a permission check. The clock reading, the permission check's verdict and what
  the command's `execute` does are inputs; the timer that forgets a timestamp
  is an explicit pending expiry that `Expire` fires.
*/
module BotGate {
  import opened Wrappers
  import Text

  type UserId = string

  /** A registered slash command, as far as the gate looks at it: its name and its optional cooldown in seconds. */
  datatype Command = Command(name: string, cooldown: Option<int>)

  /** An incoming interaction: whether it is a chat-input command, the command name it names and who sent it. */
  datatype Interaction = Interaction(isChatInputCommand: bool, commandName: string, user: UserId)

  /** A JavaScript error value: its `name` and its `message`. */
  datatype JsError = JsError(name: string, message: string)

  /** `Error.prototype.toString`: the name and the message joined by ": ", or whichever one is not empty. */
  function ErrorString(e: JsError): (s: string)
    ensures e.message == [] ==> s == e.name
    ensures e.message != [] && e.name == [] ==> s == e.message
    ensures e.message != [] && e.name != [] ==> s == e.name + ": " + e.message
  {
    if e.message == [] then e.name
    else if e.name == [] then e.message
    else e.name + ": " + e.message
  }

  /** What the awaited `checkPermissions` call gave: a verdict, or an error it threw. */
  datatype PermissionCheck = Checked(result: bool) | CheckThrew(error: JsError)

  /** How the gate answered an interaction. */
  datatype Reaction =
    /** Not a chat-input command, or no such command: returned before anything else. */
    | Ignored
    /** Still cooling down: the ephemeral "please wait" reply, with the milliseconds left. */
    | CooldownReply(commandName: string, msLeft: int)
    /** The permission check passed and `execute` ran without throwing. */
    | Executed
    /** The ephemeral reply to a caught error; `executed` says whether `execute` had been called. */
    | ErrorReply(executed: bool, content: string)

  /** A `setTimeout`, scheduled at time `at`, that will delete one user's timestamp of one command `delayMs` later. */
  datatype Expiry = Expiry(commandName: string, user: UserId, at: int, delayMs: int)

  /** The largest delay a Node timer honours: 2^31 - 1 milliseconds. */
  const TimeoutMaxMs: int := 2147483647

  /**
    The delay a Node timer really waits for a requested delay: a delay outside
    [1, `TimeoutMaxMs`] is replaced by 1 millisecond.
  */
  function TimerDelay(requestedMs: int): (ms: int)
    ensures 1 <= ms <= TimeoutMaxMs
    ensures ms == requestedMs <==> 1 <= requestedMs <= TimeoutMaxMs
    ensures ms != requestedMs ==> ms == 1
  {
    if 1 <= requestedMs <= TimeoutMaxMs then requestedMs else 1
  }

  /** The cooldown in milliseconds: `(cooldown || 1) * 1000`, so a missing or zero cooldown means one second. */
  function CooldownAmount(c: Command): (ms: int)
    ensures ms % 1000 == 0
    ensures ms == 1000 <==> c.cooldown.None? || c.cooldown == Some(0) || c.cooldown == Some(1)
    ensures c.cooldown.Some? && c.cooldown.value != 0 ==> ms / 1000 == c.cooldown.value
  {
    var seconds := if c.cooldown.None? || c.cooldown.value == 0 then 1 else c.cooldown.value;
    seconds * 1000
  }

  /**
    Whether a user with this recorded timestamp (absent when there is none) is still
    cooling down at `now`. A timestamp of 0 is falsy in the source and so never blocks.
  */
  predicate CoolingDown(timestamp: Option<int>, now: int, amountMs: int) {
    timestamp.Some? && timestamp.value != 0 && now < timestamp.value + amountMs
  }

  /** The reply to an error caught around the permission check and `execute`. */
  function ErrorReplyText(e: JsError): (content: string)
    ensures Text.Contains(e.message, "permissions") ==> content == ErrorString(e)
    ensures !Text.Contains(e.message, "permissions") ==> content == "Command errored"
  {
    if Text.Contains(e.message, "permissions") then ErrorString(e) else "Command errored"
  }

  /**
    What follows an accepted interaction: the permission check decides; when it
    passes `execute` runs (`thrown` is what it throws), otherwise the
    missing-permissions exception `missing` is thrown; any error is answered.
  */
  function AfterCooldown(check: PermissionCheck, missing: JsError, thrown: Option<JsError>): (r: Reaction)
    ensures r.Executed? <==> check == Checked(true) && thrown.None?
    ensures r.ErrorReply? && r.executed <==> check == Checked(true) && thrown.Some?
    ensures check == Checked(true) && thrown.Some? ==> r == ErrorReply(true, ErrorReplyText(thrown.value))
    ensures check == Checked(false) ==> r == ErrorReply(false, ErrorReplyText(missing))
    ensures check.CheckThrew? ==> r == ErrorReply(false, ErrorReplyText(check.error))
    ensures r.Executed? || r.ErrorReply?
  {
    match check
    case CheckThrew(e) => ErrorReply(false, ErrorReplyText(e))
    case Checked(ok) =>
      if !ok then ErrorReply(false, ErrorReplyText(missing))
      else if thrown.Some? then ErrorReply(true, ErrorReplyText(thrown.value))
      else Executed
  }

  class Bot {
    /** `slashCommandsMap`: the registered commands by name; the gate only reads it. */
    var slashCommands: map<string, Command>
    /** `cooldowns`: for each command used so far, each user's last accepted time. */
    var cooldowns: map<string, map<UserId, int>>
    /** The deletions scheduled with `setTimeout`, oldest first. */
    var expiries: seq<Expiry>

    constructor (commands: map<string, Command>)
      ensures slashCommands == commands && cooldowns == map[] && expiries == []
    {
      slashCommands := commands;
      cooldowns := map[];
      expiries := [];
    }

    /**
      The `InteractionCreate` handler at time `now`. Interactions that are not chat
      commands, or that name no registered command, leave everything untouched. A
      command's timestamp map is created on its first use. A user still cooling down
      gets the "please wait" reply and nothing is recorded; otherwise the user's
      timestamp becomes `now`, its deletion is scheduled after the cooldown, and the
      permission check and the command decide the rest.
    */
    method OnInteraction(i: Interaction, now: int, check: PermissionCheck, missing: JsError, thrown: Option<JsError>)
      returns (r: Reaction)
      modifies this`cooldowns, this`expiries
      ensures !i.isChatInputCommand || i.commandName !in slashCommands ==>
        r == Ignored && cooldowns == old(cooldowns) && expiries == old(expiries)
      ensures i.isChatInputCommand && i.commandName in slashCommands ==>
        var cmd := slashCommands[i.commandName];
        var amount := CooldownAmount(cmd);
        var before := if i.commandName in old(cooldowns) then old(cooldowns)[i.commandName] else map[];
        var stamp := if i.user in before then Some(before[i.user]) else None;
        && (i.commandName in old(cooldowns) ==> cooldowns.Keys == old(cooldowns).Keys)
        && (i.commandName !in old(cooldowns) ==> cooldowns.Keys == old(cooldowns).Keys + {i.commandName})
        && (forall c :: c in old(cooldowns) && c != i.commandName ==> cooldowns[c] == old(cooldowns)[c])
        && (CoolingDown(stamp, now, amount) ==>
              && r == CooldownReply(cmd.name, stamp.value + amount - now)
              && cooldowns[i.commandName] == before
              && expiries == old(expiries))
        && (!CoolingDown(stamp, now, amount) ==>
              && r == AfterCooldown(check, missing, thrown)
              && cooldowns[i.commandName] == before[i.user := now]
              && expiries == old(expiries) + [Expiry(i.commandName, i.user, now, TimerDelay(amount))])
    {
      if !i.isChatInputCommand {
        return Ignored;
      }
      if i.commandName !in slashCommands {
        return Ignored;
      }
      var command := slashCommands[i.commandName];
      if i.commandName !in cooldowns {
        cooldowns := cooldowns[i.commandName := map[]];
      }
      var timestamps := cooldowns[i.commandName];
      var cooldownAmount := CooldownAmount(command);
      var timestamp := if i.user in timestamps then Some(timestamps[i.user]) else None;
      if timestamp.Some? && timestamp.value != 0 {
        var expirationTime := timestamp.value + cooldownAmount;
        if now < expirationTime {
          return CooldownReply(command.name, expirationTime - now);
        }
      }
      cooldowns := cooldowns[i.commandName := timestamps[i.user := now]];
      expiries := expiries + [Expiry(i.commandName, i.user, now, TimerDelay(cooldownAmount))];
      r := AfterCooldown(check, missing, thrown);
    }

    /**
      The `k`-th scheduled deletion fires at time `now`, which is no earlier than its
      delay after it was scheduled: the user's timestamp leaves that command's map
      (if it is still there); no other entry changes.
    */
    method Expire(k: nat, now: int)
      requires k < |expiries| && now >= expiries[k].at + expiries[k].delayMs
      modifies this`cooldowns, this`expiries
      ensures expiries == old(expiries[..k] + expiries[k + 1..])
      ensures var e := old(expiries[k]);
        && cooldowns.Keys == old(cooldowns).Keys
        && (forall c :: c in old(cooldowns) && c != e.commandName ==> cooldowns[c] == old(cooldowns)[c])
        && (e.commandName in old(cooldowns) ==> cooldowns[e.commandName] == old(cooldowns)[e.commandName] - {e.user})
    {
      var e := expiries[k];
      expiries := expiries[..k] + expiries[k + 1..];
      if e.commandName in cooldowns {
        cooldowns := cooldowns[e.commandName := cooldowns[e.commandName] - {e.user}];
      }
    }
  }

  /**
    The same user sends the same command twice, the second time before its cooldown
    is over: the first runs, the second gets the "please wait" reply with the time
    left; when the cooldown has passed, the scheduled deletion fires and a third
    attempt at that time runs.
  */
  method RepeatWithinCooldown(cmd: Command, user: UserId, t: int, dt: int) returns (first: Reaction, second: Reaction, third: Reaction)
    requires t != 0 && 0 <= dt < CooldownAmount(cmd)
    ensures first == Executed
    ensures second == CooldownReply(cmd.name, CooldownAmount(cmd) - dt)
    ensures third == Executed
  {
    var bot := new Bot(map[cmd.name := cmd]);
    var i := Interaction(true, cmd.name, user);
    var noError := JsError("MissingPermissionsException", "Missing permissions");
    first := bot.OnInteraction(i, t, Checked(true), noError, None);
    second := bot.OnInteraction(i, t + dt, Checked(true), noError, None);
    bot.Expire(0, t + CooldownAmount(cmd));
    third := bot.OnInteraction(i, t + CooldownAmount(cmd), Checked(true), noError, None);
  }

  /**
    A cooldown longer than the longest delay a Node timer honours (about 24.8 days):
    the deletion is scheduled after 1 millisecond, so one millisecond later the same
    user is accepted again although the cooldown is far from over.
  */
  method LongCooldownForgotten(cmd: Command, user: UserId, t: int) returns (first: Reaction, second: Reaction)
    requires t != 0 && CooldownAmount(cmd) > TimeoutMaxMs
    ensures first == Executed
    ensures second == Executed
  {
    var bot := new Bot(map[cmd.name := cmd]);
    var i := Interaction(true, cmd.name, user);
    var noError := JsError("MissingPermissionsException", "Missing permissions");
    first := bot.OnInteraction(i, t, Checked(true), noError, None);
    assert bot.expiries == [Expiry(cmd.name, user, t, 1)];
    bot.Expire(0, t + 1);
    second := bot.OnInteraction(i, t + 1, Checked(true), noError, None);
  }
}
