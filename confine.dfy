/**
 * The "Confine to Channel" context-menu command: a moderator picks one of
 * three durations for a guild member, the bot grants the guild's
 * confinement role and records when the confinement ends.
 *
 * The Discord exchange is reduced to events: the invocation, a component
 * interaction on the prompt (with the outcome of the role grant it
 * triggers and the clock reading once that grant has settled), and a
 * clock tick that lets the 10-second wait expire.
 * `Step` is the transition function; `ConfineCommand` holds the state and
 * changes it in place, one method per event.
 */
module Confine {
  import opened Wrappers
  import opened Config
  import JsNumber

  /** The custom id of the duration menu. */
  const MenuId: string := "confinement_time"
  /** How long the prompt waits for the moderator's choice, in ms. */
  const SelectionTimeoutMs: int := 10000
  /** The prompt's text after a commit. */
  const ConfirmedText: string := "Confined member to configured channel."
  /** The prompt's text after a failure, before the error's message. */
  const FailurePrefix: string := "Failed to confine member.\n"

  /** The three menu options. */
  datatype DurationOption = OneHour | OneDay | OneWeek {

    /** The label the menu shows. */
    function Label(): string {
      match this
      case OneHour => "1 hour"
      case OneDay => "1 day"
      case OneWeek => "1 week"
    }

    /** The option's value, as the menu sends it back. */
    function Value(): string {
      match this
      case OneHour => "10e3"
      case OneDay => "8.64e7"
      case OneWeek => "6.048e8"
    }

    /** `Number(value)`: the duration in ms. The option labelled "1 hour" is 10 seconds. */
    function Millis(): int {
      match this
      case OneHour => 10000
      case OneDay => 86400000
      case OneWeek => 604800000
    }
  }

  /** The options in the order the menu lists them. */
  const Options: seq<DurationOption> := [OneHour, OneDay, OneWeek]

  /** The value read from the record's store: who is confined, where, with which role, until when (ms since the epoch). */
  datatype ConfinementRecord = ConfinementRecord(id: UserId, guildId: GuildId, confinementRole: Option<RoleId>, releaseDate: int)

  /** `interaction.targetMember`: a resolved `GuildMember`, or something else (an API member object, null). */
  datatype Target = GuildMember(id: UserId) | NotAGuildMember

  /** The context-menu interaction; `guildId` is None outside a guild. */
  datatype Interaction = Interaction(userId: UserId, guildId: Option<GuildId>, target: Target)

  /** A component interaction on the prompt. */
  datatype Component = Component(userId: UserId, isStringSelect: bool, customId: string, choice: DurationOption)

  /** The outcome of `roles.add`: success, or the message of the error it threw. */
  datatype Grant = Granted | GrantFailed(message: string)

  /**
   * What can happen to one run of the command. `now` is the clock in ms
   * when the event arrives; `replied` says whether `interaction.reply`
   * resolved; `settledAt` is `Date.now()` once `roles.add` has resolved,
   * which may be later than the deadline the component arrived before.
   */
  datatype Event =
    | Invoke(interaction: Interaction, now: int, replied: bool)
    | Select(component: Component, grant: Grant, now: int, settledAt: int)
    | Tick(now: int, timeoutMessage: string)

  /** Who invoked the command, in which guild, on whom. */
  datatype Invocation = Invocation(moderator: UserId, guildId: GuildId, targetId: UserId)

  /** How a run ended. */
  datatype Outcome = Committed(record: ConfinementRecord) | ReplyFailed | PromptDeleted | OtherComponent | TimedOut | GrantRejected

  datatype Phase = Idle | Awaiting(inv: Invocation, deadline: int) | Done(inv: Invocation, outcome: Outcome)

  /** The ephemeral prompt the moderator sees. */
  datatype Prompt = NoPrompt | Menu(customId: string, options: seq<DurationOption>) | Deleted | Edited(content: string)

  /** Everything the command reads and writes: its phase, `confinementCache`, the target's roles and the prompt. */
  datatype State = State(phase: Phase, records: map<UserId, ConfinementRecord>, roles: set<RoleId>, prompt: Prompt)

  /** The role set a grant of role `r` adds; an undefined role adds nothing. */
  function RoleSet(r: Option<RoleId>): set<RoleId> {
    if r.Some? then {r.value} else {}
  }

  /** The start guards: in a guild, on a resolved member, and dev mode or a known guild. */
  function MayStart(cfg: BotConfig, cache: ResponseCache, i: Interaction): (r: bool)
    ensures r <==> i.guildId.Some? && i.target.GuildMember?
                   && (DevMode(cfg) || exists k :: 0 <= k < |cache| && cache[k].0 == i.guildId.value)
  {
    && i.guildId.Some?
    && i.target.GuildMember?
    && (DevMode(cfg) || Has(cache, i.guildId.value))
  }

  /** One event's effect on the state of the command. */
  function Step(cfg: BotConfig, cache: ResponseCache, s: State, e: Event): (r: State)
    ensures s.phase.Done? ==> r == s
    ensures r.phase.Idle? ==> r == s
  {
    match e
    case Invoke(i, now, replied) =>
      if s.phase.Idle? && MayStart(cfg, cache, i) then
        var inv := Invocation(i.userId, i.guildId.value, i.target.id);
        if !replied then s.(phase := Done(inv, ReplyFailed))
        else s.(phase := Awaiting(inv, now + SelectionTimeoutMs), prompt := Menu(MenuId, Options))
      else s
    case Select(c, grant, now, settledAt) =>
      if !s.phase.Awaiting? || now >= s.phase.deadline || c.userId != s.phase.inv.moderator then s
      else
        var inv := s.phase.inv;
        if !c.isStringSelect then s.(phase := Done(inv, PromptDeleted), prompt := Deleted)
        else if c.customId != MenuId then s.(phase := Done(inv, OtherComponent))
        else if grant.GrantFailed? then
          s.(phase := Done(inv, GrantRejected), prompt := Edited(FailurePrefix + grant.message))
        else
          var rec := ConfinementRecord(inv.targetId, inv.guildId, ConfinementRole(cache, inv.guildId), settledAt + c.choice.Millis());
          State(Done(inv, Committed(rec)), s.records[inv.targetId := rec],
                s.roles + RoleSet(rec.confinementRole), Edited(ConfirmedText))
    case Tick(now, message) =>
      if s.phase.Awaiting? && now >= s.phase.deadline then
        s.(phase := Done(s.phase.inv, TimedOut), prompt := Edited(FailurePrefix + message))
      else s
  }

  /** A run of the command over a sequence of events. */
  function Run(cfg: BotConfig, cache: ResponseCache, s: State, events: seq<Event>): State
    decreases |events|
  {
    if |events| == 0 then s else Run(cfg, cache, Step(cfg, cache, s, events[0]), events[1..])
  }

  /** Whose record a run in phase `p` may write. */
  function TargetOf(p: Phase): Option<UserId> {
    match p
    case Idle => None
    case Awaiting(inv, _) => Some(inv.targetId)
    case Done(inv, _) => Some(inv.targetId)
  }

  // ---------------------------------------------------------------------
  // Properties of single steps
  // ---------------------------------------------------------------------

  /** The menu offers exactly three options, whose values are 10000, 86400000 and 604800000 ms. */
  lemma OptionsAreFixed()
    ensures |Options| == 3
    ensures forall o: DurationOption :: o in Options
    ensures [Options[0].Millis(), Options[1].Millis(), Options[2].Millis()] == [10000, 86400000, 604800000]
    ensures OneHour.Label() == "1 hour" && OneHour.Value() == "10e3" && OneHour.Millis() == 10000
    ensures OneDay.Label() == "1 day" && OneDay.Value() == "8.64e7" && OneDay.Millis() == 86400000
    ensures OneWeek.Label() == "1 week" && OneWeek.Value() == "6.048e8" && OneWeek.Millis() == 604800000
  {
    forall o: DurationOption ensures o in Options {
      assert o == Options[0] || o == Options[1] || o == Options[2];
    }
  }

  /** "10e3" denotes 10000. */
  lemma HourValue()
    ensures JsNumber.Scientific(OneHour.Value()) == Some(OneHour.Millis())
  {
    var v := "10e3";
    assert JsNumber.Find(v, 'e') == 2;
    assert v[..2] == "10" && v[3..] == "3";
    assert JsNumber.Mantissa("10") == Some((10, 0)) by {
      assert JsNumber.Find("10", '.') == -1;
      assert JsNumber.Digits("10") == Some(10) by { assert "10"[..1] == "1"; }
    }
    assert JsNumber.Digits("3") == Some(3);
    JsNumber.ScientificParts(v, 2, 10, 0, 3);
    assert JsNumber.Pow10(3) == 1000;
  }

  /** "8.64e7" splits at its exponent marker into "8.64" and "7". */
  lemma DaySplit()
    ensures var v := "8.64e7"; JsNumber.Find(v, 'e') == 4 && v[..4] == "8.64" && v[5..] == "7"
  {
    var v := "8.64e7";
    assert v[0] != 'e' && v[1] != 'e' && v[2] != 'e' && v[3] != 'e' && v[4] == 'e';
  }

  /** "6.048e8" splits at its exponent marker into "6.048" and "8". */
  lemma WeekSplit()
    ensures var v := "6.048e8"; JsNumber.Find(v, 'e') == 5 && v[..5] == "6.048" && v[6..] == "8"
  {
    var v := "6.048e8";
    assert v[0] != 'e' && v[1] != 'e' && v[2] != 'e' && v[3] != 'e' && v[4] != 'e' && v[5] == 'e';
  }

  /** The mantissa "8.64" reads as 864 with two fraction digits. */
  lemma DayMantissa()
    ensures JsNumber.Mantissa("8.64") == Some((864, 2))
  {
    var m := "8.64";
    assert JsNumber.Find(m, '.') == 1;
    assert m[..1] == "8" && m[2..] == "64";
    assert JsNumber.Digits("64") == Some(64) by { assert "64"[..1] == "6"; }
    assert JsNumber.Pow10(2) == 100;
  }

  /** The mantissa "6.048" reads as 6048 with three fraction digits. */
  lemma WeekMantissa()
    ensures JsNumber.Mantissa("6.048") == Some((6048, 3))
  {
    var m := "6.048";
    assert JsNumber.Find(m, '.') == 1;
    assert m[..1] == "6" && m[2..] == "048";
    assert JsNumber.Digits("048") == Some(48) by { assert "048"[..2] == "04"; assert "04"[..1] == "0"; }
    assert JsNumber.Pow10(3) == 1000;
  }

  /** "8.64e7" denotes 86400000. */
  lemma DayValue()
    ensures JsNumber.Scientific(OneDay.Value()) == Some(OneDay.Millis())
  {
    var v := OneDay.Value();
    DaySplit();
    DayMantissa();
    assert JsNumber.Digits(v[5..]) == Some(7);
    JsNumber.ScientificParts(v, 4, 864, 2, 7);
    assert JsNumber.Pow10(5) == 100000;
    assert JsNumber.Scientific(v) == Some(86400000);
  }

  /** "6.048e8" denotes 604800000. */
  lemma WeekValue()
    ensures JsNumber.Scientific(OneWeek.Value()) == Some(OneWeek.Millis())
  {
    var v := OneWeek.Value();
    WeekSplit();
    WeekMantissa();
    assert JsNumber.Digits(v[6..]) == Some(8);
    JsNumber.ScientificParts(v, 5, 6048, 3, 8);
    assert JsNumber.Pow10(5) == 100000;
    assert JsNumber.Scientific(v) == Some(604800000);
  }

  /** Each option's value string denotes its duration: `Number(o.Value()) == o.Millis()`. */
  lemma ValuesDenoteMillis(o: DurationOption)
    ensures JsNumber.Scientific(o.Value()) == Some(o.Millis())
  {
    match o
    case OneHour => HourValue();
    case OneDay => DayValue();
    case OneWeek => WeekValue();
  }

  /**
   * An invocation starts the wait exactly when the guards hold and the
   * prompt was sent; otherwise nothing happens: no prompt, no record, no
   * role. A failed `interaction.reply` ends the run before any wait.
   */
  lemma StartGuards(cfg: BotConfig, cache: ResponseCache, s: State, i: Interaction, now: int, replied: bool)
    requires s.phase.Idle?
    ensures var t := Step(cfg, cache, s, Invoke(i, now, replied));
      && (t.phase.Awaiting? <==> MayStart(cfg, cache, i) && replied)
      && (!MayStart(cfg, cache, i) ==> t == s)
      && t.records == s.records && t.roles == s.roles
      && (MayStart(cfg, cache, i) && !replied ==>
            t == s.(phase := Done(Invocation(i.userId, i.guildId.value, i.target.id), ReplyFailed)))
      && (MayStart(cfg, cache, i) && replied ==>
            && t.phase == Awaiting(Invocation(i.userId, i.guildId.value, i.target.id), now + SelectionTimeoutMs)
            && t.prompt == Menu(MenuId, Options))
  {
  }

  /**
   * The commit: the moderator picks a duration in time and the grant
   * succeeds. The guild's configured role is added to the member, and the
   * same role goes into the record stored under the target's id, with a
   * release date the chosen duration after the clock reading taken once the
   * grant settled. No other user's record changes.
   */
  lemma CommitEffect(cfg: BotConfig, cache: ResponseCache, s: State, c: Component, now: int, settledAt: int)
    requires s.phase.Awaiting? && now < s.phase.deadline && c.userId == s.phase.inv.moderator
    requires c.isStringSelect && c.customId == MenuId
    ensures var t := Step(cfg, cache, s, Select(c, Granted, now, settledAt));
      var inv := s.phase.inv;
      var role := ConfinementRole(cache, inv.guildId);
      && t.phase.Done? && t.phase.outcome.Committed?
      && var rec := t.phase.outcome.record;
      && rec == ConfinementRecord(inv.targetId, inv.guildId, role, settledAt + c.choice.Millis())
      && rec.releaseDate > settledAt
      && t.records == s.records[inv.targetId := rec]
      && t.roles == s.roles + RoleSet(role)
      && t.prompt == Edited(ConfirmedText)
      && forall u :: u != inv.targetId ==>
           (u in t.records <==> u in s.records) && (u in s.records ==> t.records[u] == s.records[u])
  {
  }

  /**
   * Every path that does not commit leaves the records and the member's
   * roles as they were: another user's component (still waiting), a
   * component that is not a string select (prompt deleted), another custom
   * id (nothing), a failed grant (prompt shows the error) and the timeout.
   */
  lemma NonCommitPaths(cfg: BotConfig, cache: ResponseCache, s: State, e: Event)
    requires s.phase.Awaiting?
    ensures var t := Step(cfg, cache, s, e);
      var inv := s.phase.inv;
      && (e.Select? && e.now < s.phase.deadline && e.component.userId != inv.moderator ==> t == s)
      && (e.Select? && e.now < s.phase.deadline && e.component.userId == inv.moderator && !e.component.isStringSelect ==>
            t == s.(phase := Done(inv, PromptDeleted), prompt := Deleted))
      && (e.Select? && e.now < s.phase.deadline && e.component.userId == inv.moderator && e.component.isStringSelect
          && e.component.customId != MenuId ==>
            t == s.(phase := Done(inv, OtherComponent)))
      && (e.Select? && e.now < s.phase.deadline && e.component.userId == inv.moderator && e.component.isStringSelect
          && e.component.customId == MenuId && e.grant.GrantFailed? ==>
            t == s.(phase := Done(inv, GrantRejected), prompt := Edited(FailurePrefix + e.grant.message)))
      && (e.Tick? && e.now >= s.phase.deadline ==>
            t == s.(phase := Done(inv, TimedOut), prompt := Edited(FailurePrefix + e.timeoutMessage)))
      && (e.Tick? && e.now < s.phase.deadline ==> t == s)
  {
  }

  /** Only a commit changes the records or the member's roles. */
  lemma OnlyCommitWrites(cfg: BotConfig, cache: ResponseCache, s: State, e: Event)
    ensures var t := Step(cfg, cache, s, e);
      (t.records != s.records || t.roles != s.roles) ==>
        s.phase.Awaiting? && t.phase.Done? && t.phase.outcome.Committed?
  {
  }

  // ---------------------------------------------------------------------
  // Properties of whole runs
  // ---------------------------------------------------------------------

  /** Once a run has ended, no further event changes anything: at most one commit per invocation. */
  lemma {:induction false} DoneIsFinal(cfg: BotConfig, cache: ResponseCache, s: State, events: seq<Event>)
    requires s.phase.Done?
    ensures Run(cfg, cache, s, events) == s
  {
    if |events| > 0 {
      DoneIsFinal(cfg, cache, Step(cfg, cache, s, events[0]), events[1..]);
    }
  }

  /**
   * One step: the target never changes once chosen, only the target's
   * record may change, and the roles change only by a commit's role.
   */
  lemma StepTouchesOnlyTarget(cfg: BotConfig, cache: ResponseCache, s: State, e: Event)
    ensures var t := Step(cfg, cache, s, e);
      && (TargetOf(s.phase).Some? ==> TargetOf(t.phase) == TargetOf(s.phase))
      && (TargetOf(t.phase).None? ==> t.records == s.records && t.roles == s.roles)
      && (forall u :: Some(u) != TargetOf(t.phase) ==>
            (u in t.records <==> u in s.records) && (u in s.records ==> t.records[u] == s.records[u]))
      && (t.roles == s.roles
          || (t.phase.Done? && t.phase.outcome.Committed?
              && t.roles == s.roles + RoleSet(t.phase.outcome.record.confinementRole)))
  {
  }

  /**
   * Over any run, the target never changes once chosen, every record but
   * the target's is left as it was, and the roles either stay as they were
   * or gain exactly the role of the record the run committed.
   */
  lemma {:induction false} RunTouchesOnlyTarget(cfg: BotConfig, cache: ResponseCache, s: State, events: seq<Event>)
    ensures var r := Run(cfg, cache, s, events);
      && (TargetOf(s.phase).Some? ==> TargetOf(r.phase) == TargetOf(s.phase))
      && (forall u :: Some(u) != TargetOf(r.phase) ==>
            (u in r.records <==> u in s.records) && (u in s.records ==> r.records[u] == s.records[u]))
      && (r.roles == s.roles
          || (r.phase.Done? && r.phase.outcome.Committed?
              && r.roles == s.roles + RoleSet(r.phase.outcome.record.confinementRole)))
    decreases |events|
  {
    if |events| > 0 {
      var t := Step(cfg, cache, s, events[0]);
      StepTouchesOnlyTarget(cfg, cache, s, events[0]);
      if t.phase.Done? && t.phase.outcome.Committed? {
        DoneIsFinal(cfg, cache, t, events[1..]);
      } else {
        RunTouchesOnlyTarget(cfg, cache, t, events[1..]);
      }
    }
  }

  // ---------------------------------------------------------------------
  // The command, holding its state in place
  // ---------------------------------------------------------------------

  /** One run of `contextMenuRun`: the shared `confinementCache`, the target member's roles, the phase and the prompt. */
  class ConfineCommand {
    var phase: Phase
    var confinementCache: map<UserId, ConfinementRecord>
    var targetRoles: set<RoleId>
    var prompt: Prompt

    /** The command's state as a value. */
    function View(): State
      reads this
    {
      State(phase, confinementCache, targetRoles, prompt)
    }

    constructor (records: map<UserId, ConfinementRecord>, roles: set<RoleId>)
      ensures View() == State(Idle, records, roles, NoPrompt)
    {
      phase := Idle;
      confinementCache := records;
      targetRoles := roles;
      prompt := NoPrompt;
    }

    /**
     * The invocation: check the guards, then show the duration menu and
     * start the 10-second wait; `replied` is whether `interaction.reply` resolved.
     */
    method ContextMenuRun(cfg: BotConfig, cache: ResponseCache, interaction: Interaction, now: int, replied: bool)
      modifies this
      ensures View() == Step(cfg, cache, old(View()), Invoke(interaction, now, replied))
    {
      if !phase.Idle? {
        return;
      }
      if interaction.guildId.None? || !interaction.target.GuildMember? {
        return;
      }
      if !DevMode(cfg) && !Has(cache, interaction.guildId.value) {
        return;
      }
      var inv := Invocation(interaction.userId, interaction.guildId.value, interaction.target.id);
      if !replied {
        // the reply threw: the outer catch ends the run with no prompt
        phase := Done(inv, ReplyFailed);
        return;
      }
      prompt := Menu(MenuId, Options);
      phase := Awaiting(inv, now + SelectionTimeoutMs);
    }

    /**
     * A component interaction on the prompt, what the role grant it
     * triggers returns, and the clock once that grant has settled.
     */
    method OnComponent(cfg: BotConfig, cache: ResponseCache, c: Component, grant: Grant, now: int, settledAt: int)
      modifies this
      ensures View() == Step(cfg, cache, old(View()), Select(c, grant, now, settledAt))
    {
      if !phase.Awaiting? || now >= phase.deadline {
        return;
      }
      // the collector's filter: only the invoking moderator
      if c.userId != phase.inv.moderator {
        return;
      }
      var inv := phase.inv;
      if !c.isStringSelect {
        prompt := Deleted;
        phase := Done(inv, PromptDeleted);
        return;
      }
      if c.customId != MenuId {
        phase := Done(inv, OtherComponent);
        return;
      }
      var role := ConfinementRole(cache, inv.guildId);
      if grant.GrantFailed? {
        // roles.add threw: the record is never written
        prompt := Edited(FailurePrefix + grant.message);
        phase := Done(inv, GrantRejected);
        return;
      }
      targetRoles := targetRoles + RoleSet(role);
      var record := ConfinementRecord(inv.targetId, inv.guildId, ConfinementRole(cache, inv.guildId), settledAt + c.choice.Millis());
      confinementCache := confinementCache[inv.targetId := record];
      prompt := Edited(ConfirmedText);
      phase := Done(inv, Committed(record));
    }

    /** The clock: at the deadline the wait rejects and the prompt shows the error. */
    method OnTick(cfg: BotConfig, cache: ResponseCache, now: int, timeoutMessage: string)
      modifies this
      ensures View() == Step(cfg, cache, old(View()), Tick(now, timeoutMessage))
    {
      if phase.Awaiting? && now >= phase.deadline {
        prompt := Edited(FailurePrefix + timeoutMessage);
        phase := Done(phase.inv, TimedOut);
      }
    }
  }

  /** A moderator confines a member for the option labelled "1 day"; a later event changes nothing. */
  method ExampleConfinement(cfg: BotConfig)
  {
    var cache: ResponseCache := [("g1", Some(GuildConfig(map[], "muted")))];
    var earlier := ConfinementRecord("u2", "g1", Some("muted"), 5);
    var command := new ConfineCommand(map["u2" := earlier], {"member"});
    assert IndexOf(cache, "g1") == 0;
    command.ContextMenuRun(cfg, cache, Interaction("mod", Some("g1"), GuildMember("u1")), 1000, true);
    assert command.phase.Awaiting?;
    command.OnComponent(cfg, cache, Component("someone", true, MenuId, OneWeek), Granted, 2000, 2000);
    assert command.phase.Awaiting?;
    command.OnComponent(cfg, cache, Component("mod", true, MenuId, OneDay), Granted, 3000, 3000);
    assert command.confinementCache == map["u2" := earlier, "u1" := ConfinementRecord("u1", "g1", Some("muted"), 86403000)];
    assert command.targetRoles == {"member", "muted"};
    command.OnTick(cfg, cache, 20000, "time");
    assert command.targetRoles == {"member", "muted"};
  }
}
