/** Notification mode (src/bot/handlers/notification_cmd_handler.py): a cron
    job that sends the pending notifications, every minute or as a daily
    digest at 20:00, switched by an inline button. The cron library is modelled by `CronJob`
    objects that are created running and can be stopped; its timer is left
    out, and one firing is the `SendNotificationsGlobal` call. */
module NotificationCmdHandler {
  import opened Wrappers
  import opened Text

  const ImmediatePattern: string := "* * * * *"
  /** The digest pattern as the source writes it: every minute of hour 20. */
  const DigestPatternAsWritten: string := "* 20 * * *"
  /** The digest pattern the source's comment and button promise: 20:00 once a day. */
  const DigestPattern: string := "0 20 * * *"
  const ImmediateEdit: string := "Режим уведомлений обновлен: *Сразу* (каждую минуту)"
  const DigestEdit: string := "Режим уведомлений обновлен: *Дайджест* (раз в сутки)"
  const UnknownChoice: string := "Неизвестный выбор!"
  const SendingLog: string := "Отправка уведомлений согласно новому расписанию."

  function ScheduledLog(pattern: string): string {
    "Создана крон-задача уведомлений с расписанием: " + pattern
  }

  function FailureLog(e: string): string {
    "Ошибка при отправке уведомлений: " + e
  }

  /** The pattern a button selects, if it is one of the two buttons. */
  function PatternFor(data: string): (r: Option<string>)
    ensures r == Some(ImmediatePattern) <==> data == "notif_immediate"
    ensures r == Some(DigestPattern) <==> data == "notif_digest"
    ensures r.None? <==> data != "notif_immediate" && data != "notif_digest"
  {
    if data == "notif_immediate" then Some(ImmediatePattern)
    else if data == "notif_digest" then Some(DigestPattern)
    else None
  }

  /** Whether one field of a cron pattern admits the value `v`: `*` admits
      every value, a number only itself (the patterns here use no lists,
      ranges or steps). */
  predicate FieldAdmits(field: string, v: nat) {
    field == "*" || (field != "" && AllDigits(field) && DigitsValue(field) == v)
  }

  /** Whether a five-field cron pattern whose day, month and weekday fields
      are `*` fires at minute `m` of hour `h`. */
  predicate FiresAt(pattern: string, h: nat, m: nat) {
    var f := Split(pattern, ' ');
    |f| == 5 && FieldAdmits(f[0], m) && FieldAdmits(f[1], h) && f[2] == "*" && f[3] == "*" && f[4] == "*"
  }

  lemma ImmediateFields()
    ensures Split(ImmediatePattern, ' ') == ["*", "*", "*", "*", "*"]
  {
    SplitJoin(["*", "*", "*", "*", "*"], ' ');
  }

  lemma DigestFields()
    ensures Split(DigestPatternAsWritten, ' ') == ["*", "20", "*", "*", "*"]
    ensures Split(DigestPattern, ' ') == ["0", "20", "*", "*", "*"]
  {
    var tail := ["20", "*", "*", "*"];
    assert Join([' '], tail) == "20 * * *" by { assert tail[1..] == ["*", "*", "*"]; }
    assert Join([' '], ["*"] + tail) == DigestPatternAsWritten by { assert (["*"] + tail)[1..] == tail; }
    assert Join([' '], ["0"] + tail) == DigestPattern by { assert (["0"] + tail)[1..] == tail; }
    assert ["*"] + tail == ["*", "20", "*", "*", "*"];
    assert ["0"] + tail == ["0", "20", "*", "*", "*"];
    SplitJoin(["*", "20", "*", "*", "*"], ' ');
    SplitJoin(["0", "20", "*", "*", "*"], ' ');
  }

  /** "Сразу (каждую минуту)": the immediate pattern fires at every minute of the day. */
  lemma ImmediateFiresEveryMinute(h: nat, m: nat)
    ensures FiresAt(ImmediatePattern, h, m)
  {
    ImmediateFields();
  }

  /** The digest pattern as written fires at 20:00 and again at every minute
      up to 20:59: sixty digests an evening, not one. */
  lemma DigestAsWrittenFiresAllHour(m: nat)
    requires m < 60
    ensures FiresAt(DigestPatternAsWritten, 20, m)
    ensures FiresAt(DigestPatternAsWritten, 20, 0) && FiresAt(DigestPatternAsWritten, 20, 59)
  {
    DigestFields();
  }

  /** The corrected digest pattern fires once a day, at 20:00. */
  lemma DigestFiresOncePerDay(h: nat, m: nat)
    ensures FiresAt(DigestPattern, h, m) <==> h == 20 && m == 0
  {
    DigestFields();
    assert DigitsValue("0") == 0;
    assert DigitsValue("20") == 20 by { assert "20"[..1] == "2"; }
  }

  /** What the log holds after one firing: the debug line, and the
      exception's line when `send_notifications` raised. */
  function FiringLog(outcome: Option<string>): (lines: seq<string>)
    ensures |lines| >= 1 && lines[0] == SendingLog
    ensures outcome.None? <==> |lines| == 1
    ensures outcome.Some? ==> lines[|lines| - 1] == FailureLog(outcome.value)
  {
    match outcome
    case None => [SendingLog]
    case Some(e) => [SendingLog, FailureLog(e)]
  }

  /** A job `aiocron.crontab(pattern, start=True)` returned. */
  class CronJob {
    const pattern: string
    var running: bool

    constructor (p: string)
      ensures pattern == p && running
    {
      pattern := p;
      running := true;
    }

    method Stop()
      modifies this
      ensures !running
    {
      running := false;
    }
  }

  /** The module's globals `current_cron_expression` and `current_cron_handle`,
      what the buttons answer, and the log. */
  class NotificationSchedule {
    var expression: string
    var handle: CronJob?
    /** Every job ever created. */
    ghost var jobs: set<CronJob>
    var edits: seq<string>
    var alerts: seq<string>
    var log: seq<string>

    /** Exactly one job runs, the current one, and it runs the current pattern. */
    ghost predicate Valid()
      reads this, jobs
    {
      && handle != null && handle in jobs && handle.pattern == expression
      && forall j :: j in jobs ==> (j.running <==> j == handle)
    }

    /** Loading the module schedules the immediate pattern. */
    constructor ()
      ensures Valid() && expression == ImmediatePattern
      ensures fresh(handle) && jobs == {handle}
      ensures edits == [] && alerts == [] && log == [ScheduledLog(ImmediatePattern)]
    {
      expression := ImmediatePattern;
      handle := null;
      jobs := {};
      edits, alerts, log := [], [], [];
      new;
      ScheduleNotifications(expression);
    }

    /** `schedule_notifications`: stop the current job, if any, and start a
        new one for `p`. No job but the new one is left running. */
    method ScheduleNotifications(p: string)
      requires handle != null ==> handle in jobs
      requires forall j :: j in jobs ==> (j.running <==> j == handle)
      modifies this, jobs
      ensures old(handle) != null ==> !old(handle).running
      ensures fresh(handle) && handle.pattern == p && handle.running
      ensures jobs == old(jobs) + {handle}
      ensures forall j :: j in jobs ==> (j.running <==> j == handle)
      ensures expression == old(expression) && edits == old(edits) && alerts == old(alerts)
      ensures log == old(log) + [ScheduledLog(p)]
    {
      if handle != null {
        handle.Stop();
      }
      var job := new CronJob(p);
      handle := job;
      jobs := jobs + {job};
      log := log + [ScheduledLog(p)];
    }

    /** `notifications_callback_handler`: a button switches the pattern and
        reschedules; any other data is answered with an alert and changes
        nothing else. */
    method Callback(data: string)
      requires Valid()
      modifies this, jobs
      ensures Valid()
      ensures PatternFor(data).Some? ==>
                && expression == PatternFor(data).value && fresh(handle) && jobs == old(jobs) + {handle}
                && !old(handle).running && alerts == old(alerts)
                && edits == old(edits) + [if data == "notif_immediate" then ImmediateEdit else DigestEdit]
                && log == old(log) + [ScheduledLog(expression)]
      ensures PatternFor(data).None? ==>
                && expression == old(expression) && handle == old(handle) && jobs == old(jobs)
                && edits == old(edits) && log == old(log) && alerts == old(alerts) + [UnknownChoice]
                && forall j :: j in jobs ==> j.running == old(j.running)
    {
      if data == "notif_immediate" {
        expression := ImmediatePattern;
        ScheduleNotifications(expression);
        edits := edits + [ImmediateEdit];
      } else if data == "notif_digest" {
        expression := DigestPattern;
        ScheduleNotifications(expression);
        edits := edits + [DigestEdit];
      } else {
        alerts := alerts + [UnknownChoice];
      }
    }

    /** `send_notifications_global`: one firing of the job. `outcome` is
        `None` when `send_notifications` returned and the exception's text
        when it raised; the exception is logged and does not escape, so the
        schedule is left as it was. */
    method SendNotificationsGlobal(outcome: Option<string>)
      requires Valid()
      modifies this
      ensures Valid()
      ensures log == old(log) + FiringLog(outcome)
      ensures expression == old(expression) && handle == old(handle) && edits == old(edits) && alerts == old(alerts)
      ensures jobs == old(jobs)
    {
      log := log + [SendingLog];
      if outcome.Some? {
        log := log + [FailureLog(outcome.value)];
      }
    }
  }
}
