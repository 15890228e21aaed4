/** lambda_handler: one invocation of the dead man's switch. It loads (or
    creates) the record, polls the bot for updates, takes exactly one of four
    branches and persists the result. Step is the specification of one
    invocation; LambdaHandler is the handler itself, over a DBXUpDown object. */
module CheckIn {
  import opened Wrappers
  import opened Dropbox
  import Telegram

  /** The elapsed-invocation count at which the switch escalates (42 * 2). */
  const THRESHOLD := 42 * 2
  const REMINDER := "Please check in"
  const EMAIL_SUBJECT := "One last time..."

  /** A bot update; message is None for updates that carry no message. */
  datatype Message = Message(text: string)
  datatype Update = Update(message: Option<Message>)

  /** What bot.get_updates gave, or that it raised. */
  datatype Fetch = Fetched(updates: seq<Update>) | FetchFailed

  /** The two addresses EMAIL1 and EMAIL2 of the environment. */
  datatype Config = Config(email1: string, email2: string)

  /** An escalation email: its subject and recipient list. */
  datatype Email = Email(subject: string, recipients: seq<string>)

  datatype Branch = Escalate | RecordCheckIn | Reset | Tick

  /** What one invocation does: the branch taken, the record it persists, the
      emails it sends and the chat texts it sends. */
  datatype Outcome = Outcome(branch: Branch, persisted: Record, emails: seq<Email>, reminders: seq<string>)

  /** The first update can be read without an exception. */
  predicate Readable(updates: seq<Update>)
  {
    |updates| > 0 ==> updates[0].message.Some?
  }

  /** The updates the handler goes on with: get_latest_message raises when
      the fetch fails or when the first update has no message, and the
      handler then uses []. */
  function Inbox(f: Fetch): (updates: seq<Update>)
    ensures Readable(updates)
    ensures f.FetchFailed? ==> updates == []
    ensures f.Fetched? && Readable(f.updates) ==> updates == f.updates
    ensures f.Fetched? && !Readable(f.updates) ==> updates == []
  {
    match f
    case FetchFailed => []
    case Fetched(us) => if |us| > 0 && us[0].message.None? then [] else us
  }

  function EscalationEmail(cfg: Config): Email
  {
    Email(EMAIL_SUBJECT, [cfg.email1, cfg.email2])
  }

  /** The branch conditions, in the order the handler tests them. */
  predicate EscalateWhen(rec: Record)
  {
    rec.noOfDaysElapsed == THRESHOLD && rec.status == NOT_CHECKED_IN && rec.emailSent == NO
  }

  predicate CheckInWhen(rec: Record, updates: seq<Update>)
  {
    rec.noOfDaysElapsed < THRESHOLD && |updates| != 0 && rec.status == NOT_CHECKED_IN
  }

  predicate ResetWhen(rec: Record)
  {
    rec.noOfDaysElapsed >= THRESHOLD && Legal(rec)
  }

  /** The branch the handler takes. Escalation and reset happen only at or
      past the threshold, a check-in only with a message in the inbox; below
      the threshold, with an empty inbox, the default branch always runs. */
  function Select(rec: Record, updates: seq<Update>): (b: Branch)
    ensures b == Escalate ==> rec.noOfDaysElapsed == THRESHOLD && rec.emailSent == NO
    ensures b == Reset ==> rec.noOfDaysElapsed >= THRESHOLD
    ensures b == RecordCheckIn ==> |updates| > 0 && rec.status == NOT_CHECKED_IN
    ensures rec.noOfDaysElapsed < THRESHOLD && updates == [] ==> b == Tick
    ensures rec.noOfDaysElapsed >= THRESHOLD && Legal(rec) ==> b == Escalate || b == Reset
  {
    if EscalateWhen(rec) then Escalate
    else if CheckInWhen(rec, updates) then RecordCheckIn
    else if ResetWhen(rec) then Reset
    else Tick
  }

  /** One invocation on the record the handler loaded; isNew says that
      get_or_create_db has just created it. */
  function Step(rec: Record, isNew: bool, updates: seq<Update>, now: Time, cfg: Config): (out: Outcome)
    requires Readable(updates)
    ensures out.branch == Select(rec, updates)
    ensures out.persisted.lastChecked == now
    ensures out.branch != Reset ==> out.persisted.source == rec.source
  {
    var n := rec.noOfDaysElapsed;
    match Select(rec, updates)
    case Escalate =>
      Outcome(Escalate, rec.(emailSent := YES, noOfDaysElapsed := n + 1, lastChecked := now),
              [EscalationEmail(cfg)], [])
    case RecordCheckIn =>
      Outcome(RecordCheckIn,
              rec.(lastMessage := updates[0].message.value.text, status := CHECKED_IN,
                   noOfDaysElapsed := n + 1, lastChecked := now),
              [], [])
    case Reset =>
      Outcome(Reset, DataTemplate(now), [], [])
    case Tick =>
      Outcome(Tick, rec.(noOfDaysElapsed := if isNew then n else n + 1, lastChecked := now),
              [], if rec.status == NOT_CHECKED_IN then Telegram.Planned([REMINDER]) else [])
  }

  /** The reminder goes out as one chat message. */
  lemma ReminderIsOneMessage()
    ensures Telegram.Planned([REMINDER]) == [REMINDER]
  {
  }

  // ---------------------------------------------------------------------
  // The four branches

  /** Escalate: one email to EMAIL1 and EMAIL2; emailSent becomes "yes" and
      the counter goes one past the threshold; nothing else but lastChecked
      changes. */
  lemma EscalateStep(rec: Record, isNew: bool, updates: seq<Update>, now: Time, cfg: Config)
    requires Readable(updates)
    requires EscalateWhen(rec)
    ensures var out := Step(rec, isNew, updates, now, cfg);
      && out.branch == Escalate
      && out.emails == [Email(EMAIL_SUBJECT, [cfg.email1, cfg.email2])] && out.reminders == []
      && out.persisted.emailSent == YES && out.persisted.noOfDaysElapsed == THRESHOLD + 1
      && out.persisted.status == rec.status && out.persisted.lastMessage == rec.lastMessage
      && out.persisted.source == rec.source && out.persisted.lastChecked == now
  {
  }

  /** Record check-in: the first update's text becomes lastMessage, the
      status becomes "checked in", the counter goes up by one, and nothing is
      sent. */
  lemma CheckInStep(rec: Record, isNew: bool, updates: seq<Update>, now: Time, cfg: Config)
    requires Readable(updates)
    requires rec.noOfDaysElapsed < THRESHOLD && |updates| > 0 && rec.status == NOT_CHECKED_IN
    ensures var out := Step(rec, isNew, updates, now, cfg);
      && out.branch == RecordCheckIn
      && out.persisted == Record(rec.source, updates[0].message.value.text, CHECKED_IN, rec.emailSent,
                                 now, rec.noOfDaysElapsed + 1)
      && out.emails == [] && out.reminders == []
  {
  }

  /** Reset: at or past the threshold, with legal status and emailSent and
      no escalation due, the template is persisted and nothing is sent. */
  lemma ResetStep(rec: Record, isNew: bool, updates: seq<Update>, now: Time, cfg: Config)
    requires Readable(updates)
    requires rec.noOfDaysElapsed >= THRESHOLD && Legal(rec) && !EscalateWhen(rec)
    ensures var out := Step(rec, isNew, updates, now, cfg);
      && out.branch == Reset
      && out.persisted == Record("from aws", "", NOT_CHECKED_IN, NO, now, 1)
      && out.emails == [] && out.reminders == []
  {
  }

  /** Default branch: the reminder is sent exactly when the status is "not
      checked in"; the counter goes up by one exactly when the record was not
      just created; only the counter and lastChecked change. */
  lemma TickStep(rec: Record, isNew: bool, updates: seq<Update>, now: Time, cfg: Config)
    requires Readable(updates)
    requires !EscalateWhen(rec) && !CheckInWhen(rec, updates) && !ResetWhen(rec)
    ensures var out := Step(rec, isNew, updates, now, cfg);
      && out.branch == Tick
      && out.emails == []
      && (out.reminders != [] <==> rec.status == NOT_CHECKED_IN)
      && (rec.status == NOT_CHECKED_IN ==> out.reminders == [REMINDER])
      && (out.persisted.noOfDaysElapsed == rec.noOfDaysElapsed + 1 <==> !isNew)
      && (isNew ==> out.persisted.noOfDaysElapsed == rec.noOfDaysElapsed)
      && out.persisted == rec.(noOfDaysElapsed := out.persisted.noOfDaysElapsed, lastChecked := now)
  {
    ReminderIsOneMessage();
  }

  // ---------------------------------------------------------------------
  // Properties of every invocation

  /** The status moves from "not checked in" to "checked in" only when a
      check-in is recorded, and back only when the record is reset; lastMessage
      changes only in those two branches. */
  lemma StatusTransitions(rec: Record, isNew: bool, updates: seq<Update>, now: Time, cfg: Config)
    requires Readable(updates)
    ensures var out := Step(rec, isNew, updates, now, cfg);
      && (rec.status == NOT_CHECKED_IN && out.persisted.status == CHECKED_IN ==> out.branch == RecordCheckIn)
      && (out.branch == RecordCheckIn ==> rec.status == NOT_CHECKED_IN && out.persisted.status == CHECKED_IN)
      && (rec.status == CHECKED_IN && out.persisted.status == NOT_CHECKED_IN ==> out.branch == Reset)
      && (out.persisted.lastMessage != rec.lastMessage ==> out.branch == RecordCheckIn || out.branch == Reset)
  {
  }

  /** At most one notification per invocation: an email only on escalation,
      a reminder only on the default branch, never both. */
  lemma AtMostOneNotification(rec: Record, isNew: bool, updates: seq<Update>, now: Time, cfg: Config)
    requires Readable(updates)
    ensures var out := Step(rec, isNew, updates, now, cfg);
      && |out.emails| <= 1 && |out.reminders| <= 1
      && (out.emails == [] || out.reminders == [])
      && (out.emails != [] <==> out.branch == Escalate)
      && (out.reminders != [] <==> out.branch == Tick && rec.status == NOT_CHECKED_IN)
  {
    ReminderIsOneMessage();
  }

  /** A legal record stays legal, and a counter of at least one stays at
      least one. */
  lemma StepKeepsInvariant(rec: Record, isNew: bool, updates: seq<Update>, now: Time, cfg: Config)
    requires Readable(updates)
    ensures var out := Step(rec, isNew, updates, now, cfg);
      && (Legal(rec) ==> Legal(out.persisted))
      && (rec.noOfDaysElapsed >= 1 ==> out.persisted.noOfDaysElapsed >= 1)
  {
  }

  /** Within a cycle the counter never goes down; it only returns to 1 when
      the whole record is reset to the template. */
  lemma CounterMonotoneUntilReset(rec: Record, isNew: bool, updates: seq<Update>, now: Time, cfg: Config)
    requires Readable(updates)
    ensures var out := Step(rec, isNew, updates, now, cfg);
      || out.persisted == DataTemplate(now)
      || out.persisted.noOfDaysElapsed == rec.noOfDaysElapsed + 1
      || (isNew && out.persisted.noOfDaysElapsed == rec.noOfDaysElapsed)
  {
  }

  /** emailSent goes from "no" to "yes" only on escalation, and goes back only
      on reset. */
  lemma EmailSentTransitions(rec: Record, isNew: bool, updates: seq<Update>, now: Time, cfg: Config)
    requires Readable(updates)
    ensures var out := Step(rec, isNew, updates, now, cfg);
      && (out.emails != [] ==> rec.emailSent == NO && out.persisted.emailSent == YES)
      && (rec.emailSent == NO && out.persisted.emailSent == YES ==> out.branch == Escalate)
      && (rec.emailSent == YES ==> out.emails == [] && (out.persisted.emailSent == YES || out.branch == Reset))
  {
  }

  /** A record whose status is "checked in" makes the invocation silent. */
  lemma CheckedInIsSilent(rec: Record, isNew: bool, updates: seq<Update>, now: Time, cfg: Config)
    requires Readable(updates)
    requires rec.status == CHECKED_IN
    ensures var out := Step(rec, isNew, updates, now, cfg);
      && out.emails == [] && out.reminders == []
      && (rec.noOfDaysElapsed < THRESHOLD ==>
            out.persisted.status == CHECKED_IN
            && out.persisted.noOfDaysElapsed == rec.noOfDaysElapsed + (if isNew then 0 else 1))
  {
  }

  /** The record get_or_create_db creates has counter 1, so the invocation
      that creates it neither escalates nor resets, and its counter stays 1
      unless a check-in arrives. */
  lemma NewRecordStep(updates: seq<Update>, now: Time, now': Time, cfg: Config)
    requires Readable(updates)
    ensures var (rec, isNew) := GetOrCreate(None, now);
      var out := Step(rec, isNew, updates, now', cfg);
      && isNew && rec == DataTemplate(now)
      && (out.branch == RecordCheckIn || out.branch == Tick)
      && out.emails == []
      && (updates == [] ==> out.persisted.noOfDaysElapsed == 1 && out.reminders == [REMINDER])
  {
    ReminderIsOneMessage();
  }

  /** Escalation leaves the counter at THRESHOLD + 1, so the next invocation
      resets the record whatever the inbox holds. */
  lemma EscalateThenReset(rec: Record, updates: seq<Update>, updates': seq<Update>, now: Time, now': Time, cfg: Config)
    requires Readable(updates) && Readable(updates')
    requires EscalateWhen(rec)
    ensures var first := Step(rec, false, updates, now, cfg);
      var second := Step(first.persisted, false, updates', now', cfg);
      && second.branch == Reset && second.persisted == DataTemplate(now')
      && second.emails == [] && second.reminders == []
  {
  }

  // ---------------------------------------------------------------------
  // Runs of invocations without a check-in

  /** The record, emails and chat texts left by consecutive invocations on
      an existing record with an empty inbox, one per timestamp in nows. */
  datatype Trace = Trace(last: Record, emails: seq<Email>, reminders: seq<string>)

  function QuietRun(rec: Record, nows: seq<Time>, cfg: Config): Trace
    decreases |nows|
  {
    if nows == [] then Trace(rec, [], [])
    else
      var out := Step(rec, false, [], nows[0], cfg);
      var rest := QuietRun(out.persisted, nows[1..], cfg);
      Trace(rest.last, out.emails + rest.emails, out.reminders + rest.reminders)
  }

  /** Below the threshold, every silent invocation sends one reminder, sends
      no email and adds one to the counter. */
  lemma {:induction false} SilentDaysCountUp(rec: Record, nows: seq<Time>, cfg: Config)
    requires rec.status == NOT_CHECKED_IN
    requires rec.noOfDaysElapsed + |nows| <= THRESHOLD
    ensures var t := QuietRun(rec, nows, cfg);
      && t.emails == []
      && |t.reminders| == |nows| && (forall i :: 0 <= i < |t.reminders| ==> t.reminders[i] == REMINDER)
      && t.last.noOfDaysElapsed == rec.noOfDaysElapsed + |nows|
      && t.last.status == rec.status && t.last.emailSent == rec.emailSent
      && t.last.lastMessage == rec.lastMessage && t.last.source == rec.source
    decreases |nows|
  {
    if nows != [] {
      var out := Step(rec, false, [], nows[0], cfg);
      TickStep(rec, false, [], nows[0], cfg);
      SilentDaysCountUp(out.persisted, nows[1..], cfg);
    }
  }

  /** The switch itself: from a record that is not checked in and has sent
      no email, with the counter at k <= THRESHOLD, THRESHOLD - k silent
      invocations send one reminder each, the next sends the escalation email
      (and nothing else), and the one after that resets the record. */
  lemma {:induction false} SilenceEscalatesThenResets(rec: Record, nows: seq<Time>, cfg: Config)
    requires rec.status == NOT_CHECKED_IN && rec.emailSent == NO
    requires rec.noOfDaysElapsed <= THRESHOLD
    requires |nows| == THRESHOLD - rec.noOfDaysElapsed + 2
    ensures var t := QuietRun(rec, nows, cfg);
      && t.emails == [EscalationEmail(cfg)]
      && |t.reminders| == THRESHOLD - rec.noOfDaysElapsed
      && (forall i :: 0 <= i < |t.reminders| ==> t.reminders[i] == REMINDER)
      && t.last == DataTemplate(nows[|nows| - 1])
    ensures QuietRun(rec, nows[..|nows| - 2], cfg).emails == []
    decreases |nows|
  {
    SilentDaysCountUp(rec, nows[..|nows| - 2], cfg);
    var out := Step(rec, false, [], nows[0], cfg);
    if rec.noOfDaysElapsed == THRESHOLD {
      var second := Step(out.persisted, false, [], nows[1], cfg);
      assert second.persisted == DataTemplate(nows[1]);
      assert nows[1..][0] == nows[1] && nows[1..][1..] == [];
      assert QuietRun(out.persisted, nows[1..], cfg).last == second.persisted;
    } else {
      TickStep(rec, false, [], nows[0], cfg);
      SilenceEscalatesThenResets(out.persisted, nows[1..], cfg);
    }
  }

  /** After a check-in the cycle runs out quietly: no reminder and no email
      until the counter reaches the threshold, where the record is reset. */
  lemma {:induction false} CheckedInCycleIsQuiet(rec: Record, nows: seq<Time>, cfg: Config)
    requires rec.status == CHECKED_IN && Legal(rec)
    requires rec.noOfDaysElapsed <= THRESHOLD
    requires |nows| == THRESHOLD - rec.noOfDaysElapsed + 1
    ensures var t := QuietRun(rec, nows, cfg);
      && t.emails == [] && t.reminders == []
      && t.last == DataTemplate(nows[|nows| - 1])
    decreases |nows|
  {
    var out := Step(rec, false, [], nows[0], cfg);
    if rec.noOfDaysElapsed < THRESHOLD {
      CheckedInCycleIsQuiet(out.persisted, nows[1..], cfg);
    }
  }

  /** A status or emailSent outside the legal values is never reset: the
      counter grows past the threshold on every invocation and nothing is
      emailed. */
  lemma {:induction false} UnknownValuesNeverReset(rec: Record, nows: seq<Time>, cfg: Config)
    requires !Legal(rec) && rec.noOfDaysElapsed >= THRESHOLD
    ensures var t := QuietRun(rec, nows, cfg);
      && t.emails == []
      && t.last.noOfDaysElapsed == rec.noOfDaysElapsed + |nows|
      && t.last.status == rec.status && t.last.emailSent == rec.emailSent
    decreases |nows|
  {
    if nows != [] {
      var out := Step(rec, false, [], nows[0], cfg);
      UnknownValuesNeverReset(out.persisted, nows[1..], cfg);
    }
  }

  // ---------------------------------------------------------------------
  // The handler

  /** lambda_handler. The store is dbx; the bot's answer is fetch; a failing
      files_download is downloadFails; datetime.now() is now; the results are
      the emails and the chat texts sent. */
  method LambdaHandler(dbx: DBXUpDown, fetch: Fetch, downloadFails: bool, now: Time, cfg: Config)
    returns (emails: seq<Email>, chat: seq<string>)
    modifies dbx
    ensures var (rec, isNew) := GetOrCreate(if downloadFails then None else old(Lookup(dbx.files, PathOf(DB_FILE))), now);
      var out := Step(rec, isNew, Inbox(fetch), now, cfg);
      && emails == out.emails && chat == out.reminders
      && dbx.files == old(dbx.files)[PathOf(DB_FILE) := out.persisted]
      && dbx.uploads == old(dbx.uploads) + (if isNew then [Upload(PathOf(DB_FILE), rec)] else [])
                                         + [Upload(PathOf(DB_FILE), out.persisted)]
  {
    var deets, isNew := dbx.GetOrCreateDb(now, downloadFails);

    var noOfDaysElapsed := deets.noOfDaysElapsed;
    var status := deets.status;
    var emailSent := deets.emailSent;

    var updates := Inbox(fetch);
    emails, chat := [], [];

    if noOfDaysElapsed == THRESHOLD && status == NOT_CHECKED_IN && emailSent == NO {
      emails := [EscalationEmail(cfg)];
      noOfDaysElapsed := noOfDaysElapsed + 1;
      deets := deets.(emailSent := YES);
      deets := deets.(noOfDaysElapsed := noOfDaysElapsed);
      deets := deets.(lastChecked := now);
      dbx.AddToDropbox(deets, DB_FILE);
    } else if noOfDaysElapsed < THRESHOLD && |updates| != 0 && status == NOT_CHECKED_IN {
      noOfDaysElapsed := noOfDaysElapsed + 1;
      deets := deets.(lastMessage := updates[0].message.value.text);
      deets := deets.(status := CHECKED_IN);
      deets := deets.(noOfDaysElapsed := noOfDaysElapsed);
      deets := deets.(lastChecked := now);
      dbx.AddToDropbox(deets, DB_FILE);
    } else if noOfDaysElapsed >= THRESHOLD && (emailSent == YES || emailSent == NO)
              && (status == CHECKED_IN || status == NOT_CHECKED_IN) {
      var dataTemplate := DataTemplate(now);
      dbx.AddToDropbox(dataTemplate, DB_FILE);
    } else {
      if status == NOT_CHECKED_IN {
        chat := Telegram.SendMessage([REMINDER]);
      }
      if !isNew {
        noOfDaysElapsed := noOfDaysElapsed + 1;
      }
      deets := deets.(noOfDaysElapsed := noOfDaysElapsed);
      deets := deets.(lastChecked := now);
      dbx.AddToDropbox(deets, DB_FILE);
    }
  }
}
