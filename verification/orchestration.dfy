/**
 * The scheduled Lambda that asks the evaluation agent about a range of
 * students, one after another. For each id from the start id on it builds a
 * prompt, reads the agent's answer, stores it with a sanitised timestamp
 * under (`str(id)`, period) and records the id; after the loop it publishes
 * one success notice. Any exception stops the run where it is: the items
 * already written stay, and one failure notice is published instead.
 *
 * The agent is a function from a prompt to its event stream, the clock a
 * function from the iteration number to the ISO timestamp read in that
 * iteration, and the environment a value; the table and the topic are the
 * mutable services of module Services.
 *
 * `RunSpec` states the whole effect of a run as a function of its inputs;
 * `HandleRun` is the handler's loop, proved to have exactly that effect.
 */
module Orchestration {
  import opened Values
  import opened PyInt
  import opened PyRepr
  import opened Records
  import opened AgentStream
  import opened Timestamps
  import opened Services

  const DefaultStudentsId := Str("1")
  const DefaultPeriod := "2025-01"
  const DefaultLoopCount := Int(3)
  const SuccessSubject := "生徒評価処理完了通知"
  const FailureSubject := "生徒評価処理エラー通知"

  /** The fields of the scheduler's payload the handler reads. */
  datatype RunEvent = RunEvent(studentsId: Option<Scalar>, period: Option<string>, loopCount: Option<Scalar>)

  /** The environment variables the handler reads. */
  datatype Env = Env(agentId: Option<string>, agentAliasId: Option<string>, topicArn: Option<string>)

  /** The exceptions a run can raise. */
  datatype Failure =
    | InvalidLiteral(text: string)   // `int(text)` raised ValueError
    | MissingVariable(name: string)  // `os.environ[name]` raised KeyError
    | ServiceError(message: string)  // the agent, the table or the topic raised

  /**
   * How the invocation ends: status 200 with the processed ids, status 500
   * with the error, or an exception that leaves the handler (the failure
   * notice itself could not be published).
   */
  datatype Outcome = Completed(results: seq<string>) | Failed(error: Failure) | Escaped(error: Failure)

  const LiteralMessage := "invalid literal for int() with base 10: "
  /** The `%.200R` of the `int()` error: `repr` of the text is cut to this many characters. */
  const ReprLimit := 200

  function Clip(s: string): string {
    if |s| <= ReprLimit then s else s[..ReprLimit]
  }

  /** `str(e)` */
  function Describe(failure: Failure): string {
    match failure
    case InvalidLiteral(text) => LiteralMessage + Clip(Repr(text))
    case MissingVariable(name) => Repr(name)
    case ServiceError(message) => message
  }

  /** `f"{v}"` */
  function ScalarText(v: Scalar): string {
    match v
    case Str(text) => text
    case Int(n) => Show(n)
  }

  /** `int(v)`: an integer as it is; a string through `int(text)`, whose ValueError names the text. */
  function ToInt(v: Scalar): (r: Result<int, Failure>)
    ensures v.Int? ==> r == Ok(v.number)
    ensures v.Str? ==> (r.Ok? <==> Parse(v.text).Some?)
    ensures r.Err? ==> v.Str? && r.error == InvalidLiteral(v.text)
  {
    match v
    case Int(n) => Ok(n)
    case Str(text) =>
      match Parse(text)
      case Some(n) => Ok(n)
      case None => Err(InvalidLiteral(text))
  }

  /** An id read back from its own text, `int(str(n))`, is the id. */
  lemma ToIntShow(n: int)
    ensures ToInt(Str(Show(n))) == Ok(n)
    ensures ToInt(Str(ScalarText(Int(n)))) == ToInt(Int(n))
  {
    ParseShow(n);
  }

  /**
   * `str(e)` tells the exceptions raised before any service is reached
   * apart: two equal texts come from the same `int()` or `os.environ` error,
   * as long as `repr` of each literal fits in the 200 characters the
   * `ValueError` keeps.
   */
  lemma DescribeDistinct(f: Failure, g: Failure)
    requires !f.ServiceError? && !g.ServiceError?
    requires f.InvalidLiteral? ==> |Repr(f.text)| <= ReprLimit
    requires g.InvalidLiteral? ==> |Repr(g.text)| <= ReprLimit
    ensures Describe(f) == Describe(g) ==> f == g
  {
    var a, b := Describe(f), Describe(g);
    if a == b {
      assert a[0] == b[0];
      if f.InvalidLiteral? {
        assert g.InvalidLiteral?;
        assert Repr(f.text) == a[|LiteralMessage|..];
        assert Repr(g.text) == b[|LiteralMessage|..];
        ReprInjective(f.text, g.text);
      } else {
        assert g.MissingVariable?;
        ReprInjective(f.name, g.name);
      }
    }
  }

  /**
   * Past the cut, `str(e)` no longer tells literals apart: two texts whose
   * `repr`s share their first 200 characters give the same message.
   */
  lemma DescribeClipped(s: string, t: string)
    requires |Repr(s)| >= ReprLimit && |Repr(t)| >= ReprLimit
    requires Repr(s)[..ReprLimit] == Repr(t)[..ReprLimit]
    ensures Describe(InvalidLiteral(s)) == Describe(InvalidLiteral(t))
  {
    var rs, rt := Repr(s), Repr(t);
    assert Clip(rs) == rs[..ReprLimit];
    assert Clip(rt) == rt[..ReprLimit];
  }

  function StudentsIdOf(event: RunEvent): Scalar {
    event.studentsId.GetOr(DefaultStudentsId)
  }

  function PeriodOf(event: RunEvent): string {
    event.period.GetOr(DefaultPeriod)
  }

  function LoopCountOf(event: RunEvent): Scalar {
    event.loopCount.GetOr(DefaultLoopCount)
  }

  datatype Bounds = Bounds(start: int, loopCount: int)

  /**
   * The start id and the loop count, with their defaults `"1"` and `3`; the
   * loop count is converted first, so its error is the one reported when
   * both are malformed.
   */
  function ReadBounds(event: RunEvent): (r: Result<Bounds, Failure>)
    ensures event.studentsId.None? && event.loopCount.None? ==> r == Ok(Bounds(1, 3))
    ensures ToInt(LoopCountOf(event)).Err? ==> r == Err(ToInt(LoopCountOf(event)).error)
    ensures ToInt(LoopCountOf(event)).Ok? && ToInt(StudentsIdOf(event)).Err? ==>
      r == Err(ToInt(StudentsIdOf(event)).error)
    ensures r.Ok? ==> r.value == Bounds(ToInt(StudentsIdOf(event)).value, ToInt(LoopCountOf(event)).value)
  {
    assert Parse("1") == Some(1) by {
      assert AllDigits("1") && "1"[..0] == "";
    }
    var loopCount :- ToInt(LoopCountOf(event));
    var start :- ToInt(StudentsIdOf(event));
    Ok(Bounds(start, loopCount))
  }

  /** The number of iterations of `range(loop_count)`. */
  function Iterations(bounds: Bounds): nat {
    if bounds.loopCount < 0 then 0 else bounds.loopCount
  }

  /** Everything one run's iterations depend on. */
  datatype Run = Run(
    env: Env,
    agent: string -> seq<StreamEvent>,
    clock: nat -> string,
    rejections: map<Key, string>,
    period: string,
    start: int)

  /** The id iteration `k` processes, as `str(current_id)`. */
  function IdAt(run: Run, k: nat): string {
    Show(run.start + k)
  }

  function KeyAt(run: Run, k: nat): Key {
    Key(IdAt(run, k), run.period)
  }

  const PromptHead := "出席番号: "

  /** The prompt of the loop body, `f"出席番号: {str(current_id)} の生徒の評価を…期間は {period} です。"` */
  function Prompt(id: int, period: string): string {
    PromptHead + Show(id) + " の生徒の評価を行ってください。 期間は " + period + " です。"
  }

  /** Within one period, different ids give different prompts: each student is asked about separately. */
  lemma PromptDistinct(a: int, b: int, period: string)
    ensures Prompt(a, period) == Prompt(b, period) ==> a == b
  {
    var tail := " の生徒の評価を行ってください。 期間は " + period + " です。";
    var sa, sb := Show(a), Show(b);
    assert Prompt(a, period) == PromptHead + sa + tail;
    assert Prompt(b, period) == PromptHead + sb + tail;
    if Prompt(a, period) == Prompt(b, period) {
      var p := Prompt(a, period);
      var h := |PromptHead|;
      ShowChars(a);
      ShowChars(b);
      if |sa| < |sb| {
        assert false;
      } else if |sb| < |sa| {
        assert false;
      }
      assert sa == p[h..h + |sa|] == sb;
      ShowInjective(a, b);
    }
  }

  /** The two attributes one iteration writes. */
  datatype Entry = Entry(evaluation: string, date: string)

  /**
   * What iteration `k` does, independently of what is in the table: the
   * entry it writes, or the exception it raises.
   */
  function Iteration(run: Run, k: nat): Result<Entry, Failure> {
    if run.env.agentId.None? then Err(MissingVariable("AGENT_ID"))
    else if run.env.agentAliasId.None? then Err(MissingVariable("AGENT_ALIAS_ID"))
    else
      match Completion(run.agent(Prompt(run.start + k, run.period)))
      case Err(message) => Err(ServiceError(message))
      case Ok(answer) =>
        var key := KeyAt(run, k);
        if key in run.rejections then Err(ServiceError(run.rejections[key]))
        else Ok(Entry(answer, Sanitise(run.clock(k))))
  }

  /**
   * An iteration completes exactly when both agent variables are set, the
   * agent's stream has no error event and the table accepts the key; it then
   * stores the concatenated chunks with a date free of `:` and `.`.
   */
  lemma IterationOutcome(run: Run, k: nat)
    ensures var r := Iteration(run, k);
      && (r.Ok? <==>
            && run.env.agentId.Some? && run.env.agentAliasId.Some?
            && FaultFree(run.agent(Prompt(run.start + k, run.period)))
            && KeyAt(run, k) !in run.rejections)
      && (r.Ok? ==> r.value.evaluation == Text(run.agent(Prompt(run.start + k, run.period))))
      && (r.Ok? ==> ':' !in r.value.date && '.' !in r.value.date)
  {
  }

  /** No iteration before `m` raises. */
  ghost predicate Succeeds(run: Run, m: nat) {
    forall k | 0 <= k < m :: Iteration(run, k).Ok?
  }

  /**
   * How many of `n` iterations complete: the loop stops at the first
   * iteration that raises.
   */
  function Processed(run: Run, n: nat): (m: nat)
    ensures m <= n
    ensures Succeeds(run, m)
    ensures m < n ==> Iteration(run, m).Err?
  {
    if n == 0 then 0
    else
      var m := Processed(run, n - 1);
      if m == n - 1 && Iteration(run, n - 1).Ok? then
        SucceedsNext(run, n - 1);
        n
      else
        m
  }

  /**
   * The table after the first `m` iterations, when it held `items` before
   * them: each iteration that completes stamps its key with its answer and
   * date; one that raises writes nothing.
   */
  function Applied(run: Run, items: map<Key, Item>, m: nat): map<Key, Item> {
    if m == 0 then items
    else
      var j := m - 1;
      var before := Applied(run, items, j);
      match Iteration(run, j)
      case Ok(entry) => SetEvaluation(before, KeyAt(run, j), entry.evaluation, entry.date)
      case Err(_) => before
  }

  /** The `results` list after the first `m` iterations: their ids, in order. */
  function Ids(run: Run, m: nat): (ids: seq<string>)
    ensures |ids| == m
    ensures forall k | 0 <= k < m :: ids[k] == IdAt(run, k)
  {
    if m == 0 then [] else Ids(run, m - 1) + [IdAt(run, m - 1)]
  }

  /** One more iteration appends its id to `results`. */
  lemma IdsNext(run: Run, i: nat)
    ensures Ids(run, i + 1) == Ids(run, i) + [IdAt(run, i)]
  {
  }

  /** A successful iteration after a successful prefix extends it. */
  lemma SucceedsNext(run: Run, m: nat)
    requires Succeeds(run, m) && Iteration(run, m).Ok?
    ensures Succeeds(run, m + 1)
  {
    forall k | 0 <= k < m + 1 ensures Iteration(run, k).Ok? {
      if k < m {
        assert Iteration(run, k).Ok?;
      }
    }
  }

  /** None of the first `m` iterations writes `key`. */
  ghost predicate Unwritten(run: Run, m: nat, key: Key) {
    forall k | 0 <= k < m :: KeyAt(run, k) != key
  }

  /** The item iteration `k` leaves under its key, when the table held `items` before the run. */
  function StampedAt(run: Run, items: map<Key, Item>, k: nat): Item
    requires Iteration(run, k).Ok?
  {
    var entry := Iteration(run, k).value;
    Stamped(Lookup(items, KeyAt(run, k)), KeyAt(run, k), entry.evaluation, entry.date)
  }

  /** Iterations `k` and `j` write different keys when `k != j`. */
  lemma KeysDistinct(run: Run, k: nat, j: nat)
    ensures KeyAt(run, k) == KeyAt(run, j) ==> k == j
  {
    ShowInjective(run.start + k, run.start + j);
  }

  /** The key of iteration `k` is not written by any iteration before it. */
  lemma LaterKeyUnwritten(run: Run, m: nat, k: nat)
    requires m <= k
    ensures Unwritten(run, m, KeyAt(run, k))
  {
    forall j | 0 <= j < m ensures KeyAt(run, j) != KeyAt(run, k) {
      KeysDistinct(run, j, k);
    }
  }

  /** Iteration `j` changes nothing under any key but its own. */
  lemma AppliedStep(run: Run, items: map<Key, Item>, j: nat, key: Key)
    requires key != KeyAt(run, j)
    ensures Lookup(Applied(run, items, j + 1), key) == Lookup(Applied(run, items, j), key)
  {
  }

  /** A key none of the first `m` iterations writes keeps its item (or its absence). */
  lemma {:induction false} AppliedElsewhere(run: Run, items: map<Key, Item>, m: nat, key: Key)
    requires Unwritten(run, m, key)
    ensures Lookup(Applied(run, items, m), key) == Lookup(items, key)
  {
    if m > 0 {
      var j := m - 1;
      assert KeyAt(run, j) != key;
      AppliedElsewhere(run, items, j, key);
      AppliedStep(run, items, j, key);
    }
  }

  /** Iteration `k` stamps its key over what the earlier iterations left there, which is the item before the run. */
  lemma AppliedLast(run: Run, items: map<Key, Item>, k: nat)
    requires Iteration(run, k).Ok?
    ensures Lookup(Applied(run, items, k + 1), KeyAt(run, k)) == Some(StampedAt(run, items, k))
  {
    LaterKeyUnwritten(run, k, k);
    AppliedElsewhere(run, items, k, KeyAt(run, k));
  }

  /** The iterations after `k` leave the key of iteration `k` as iteration `k` left it. */
  lemma {:induction false} AppliedKept(run: Run, items: map<Key, Item>, m: nat, k: nat)
    requires k < m
    ensures Lookup(Applied(run, items, m), KeyAt(run, k)) == Lookup(Applied(run, items, k + 1), KeyAt(run, k))
  {
    if k + 1 < m {
      var j := m - 1;
      AppliedKept(run, items, j, k);
      KeysDistinct(run, j, k);
      AppliedStep(run, items, j, KeyAt(run, k));
    }
  }

  /**
   * After `m` iterations, the key of each completed one holds its earlier
   * item stamped with that iteration's entry: no other iteration writes that key.
   */
  lemma AppliedAt(run: Run, items: map<Key, Item>, m: nat, k: nat)
    requires k < m && Iteration(run, k).Ok?
    ensures Lookup(Applied(run, items, m), KeyAt(run, k)) == Some(StampedAt(run, items, k))
  {
    AppliedKept(run, items, m, k);
    AppliedLast(run, items, k);
  }

  /**
   * The table after `m` iterations: each of their keys holds its stamped
   * item, and every key none of them addresses is as it was.
   */
  lemma AppliedRun(run: Run, items: map<Key, Item>, m: nat)
    requires Succeeds(run, m)
    ensures var after := Applied(run, items, m);
      && (forall k | 0 <= k < m :: Lookup(after, KeyAt(run, k)) == Some(StampedAt(run, items, k)))
      && (forall key | Unwritten(run, m, key) :: Lookup(after, key) == Lookup(items, key))
  {
    var after := Applied(run, items, m);
    forall k | 0 <= k < m ensures Lookup(after, KeyAt(run, k)) == Some(StampedAt(run, items, k)) {
      AppliedAt(run, items, m, k);
    }
    forall key | Unwritten(run, m, key) ensures Lookup(after, key) == Lookup(items, key) {
      AppliedElsewhere(run, items, m, key);
    }
  }

  /** When iteration `m` is the first to raise, `m` iterations complete. */
  lemma ProcessedStopsAt(run: Run, m: nat, n: nat)
    requires m <= n
    requires Succeeds(run, m)
    requires m < n ==> Iteration(run, m).Err?
    ensures Processed(run, n) == m
  {
    var p := Processed(run, n);
    if p < m {
      assert false;
    } else if m < p {
      assert false;
    }
  }

  /** The notices one `except` branch publishes, and how the invocation ends. */
  datatype Report = Report(outcome: Outcome, notices: seq<Notice>)

  /** The `except` branch: a failure notice when a topic is configured, then status 500. */
  function Abort(env: Env, period: string, startId: string, failure: Failure, outage: Option<string>): Report {
    match env.topicArn
    case None => Report(Failed(failure), [])
    case Some(arn) =>
      if outage.Some? then Report(Escaped(ServiceError(outage.value)), [])
      else Report(Failed(failure), [FailureNotice(arn, period, startId, Describe(failure))])
  }

  datatype RunResult = RunResult(report: Report, items: map<Key, Item>)

  /**
   * The effect of the loop and of what follows it, for a run of `n`
   * iterations on a table holding `items`, where publishing the success
   * notice raises `successOutage` and publishing a failure notice raises
   * `failureOutage`.
   */
  function RunFrom(
    run: Run, n: nat, startId: string, items: map<Key, Item>,
    successOutage: Option<string>, failureOutage: Option<string>
  ): RunResult
  {
    var m := Processed(run, n);
    var after := Applied(run, items, m);
    if m < n then
      RunResult(Abort(run.env, run.period, startId, Iteration(run, m).error, failureOutage), after)
    else
      var ids := Ids(run, n);
      if run.env.topicArn.Some? && successOutage.Some? then
        // the success publish raised; the `except` branch then publishes a failure notice
        RunResult(Abort(run.env, run.period, startId, ServiceError(successOutage.value), failureOutage), after)
      else
        var notices := if run.env.topicArn.Some? then [SuccessNotice(run.env.topicArn.value, run.period, ids)] else [];
        RunResult(Report(Completed(ids), notices), after)
  }

  /**
   * The effect of one invocation on a table holding `items`, where the
   * table rejects the keys of `rejections` and the topic raises
   * `successOutage` on the success notice and `failureOutage` on a failure
   * notice.
   */
  function RunSpec(
    event: RunEvent, env: Env, agent: string -> seq<StreamEvent>, clock: nat -> string,
    items: map<Key, Item>, rejections: map<Key, string>,
    successOutage: Option<string>, failureOutage: Option<string>
  ): RunResult
  {
    var period := PeriodOf(event);
    var startId := ScalarText(StudentsIdOf(event));
    match ReadBounds(event)
    case Err(failure) => RunResult(Abort(env, period, startId, failure, failureOutage), items)
    case Ok(bounds) =>
      RunFrom(Run(env, agent, clock, rejections, period, bounds.start), Iterations(bounds), startId, items,
              successOutage, failureOutage)
  }

  /**
   * A start id or loop count that is not an integer: nothing is written and
   * the status is 500 with the `int()` error, which is published in one
   * failure notice when a topic is configured (if that publish raises, its
   * exception leaves the handler instead).
   */
  lemma MalformedInput(
    event: RunEvent, env: Env, agent: string -> seq<StreamEvent>, clock: nat -> string,
    items: map<Key, Item>, rejections: map<Key, string>,
    successOutage: Option<string>, failureOutage: Option<string>)
    requires ReadBounds(event).Err?
    ensures var failure := ReadBounds(event).error;
      var result := RunSpec(event, env, agent, clock, items, rejections, successOutage, failureOutage);
      && failure.InvalidLiteral?
      && result.items == items
      && result.report.outcome ==
           (if env.topicArn.Some? && failureOutage.Some? then Escaped(ServiceError(failureOutage.value)) else Failed(failure))
      && result.report.notices ==
           if env.topicArn.Some? && failureOutage.None?
           then [FailureNotice(env.topicArn.value, PeriodOf(event), ScalarText(StudentsIdOf(event)), Describe(failure))]
           else []
  {
  }

  /**
   * The table after a run with well-formed bounds, where `m` iterations
   * complete: the key of each completed iteration holds its earlier item
   * stamped with that iteration's answer and date, and every other key, in
   * particular the key of every later iteration, is as it was.
   */
  lemma RunWrites(
    event: RunEvent, env: Env, agent: string -> seq<StreamEvent>, clock: nat -> string,
    items: map<Key, Item>, rejections: map<Key, string>,
    successOutage: Option<string>, failureOutage: Option<string>)
    requires ReadBounds(event).Ok?
    ensures var run := Run(env, agent, clock, rejections, PeriodOf(event), ReadBounds(event).value.start);
      var m := Processed(run, Iterations(ReadBounds(event).value));
      var result := RunSpec(event, env, agent, clock, items, rejections, successOutage, failureOutage);
      && (forall k | 0 <= k < m :: Lookup(result.items, KeyAt(run, k)) == Some(StampedAt(run, items, k)))
      && (forall key | Unwritten(run, m, key) :: Lookup(result.items, key) == Lookup(items, key))
      && (forall k | m <= k :: Lookup(result.items, KeyAt(run, k)) == Lookup(items, KeyAt(run, k)))
  {
    var run := Run(env, agent, clock, rejections, PeriodOf(event), ReadBounds(event).value.start);
    var m := Processed(run, Iterations(ReadBounds(event).value));
    var after := Applied(run, items, m);
    assert RunSpec(event, env, agent, clock, items, rejections, successOutage, failureOutage).items == after;
    AppliedRun(run, items, m);
    forall k | m <= k ensures Unwritten(run, m, KeyAt(run, k)) {
      LaterKeyUnwritten(run, m, k);
    }
  }

  /**
   * A run in which no iteration raises completes all `loop_count`
   * iterations and returns their ids start ... start + loop_count - 1 in
   * ascending order with status 200, and publishes one success notice
   * carrying them when a topic is configured. If that publish raises, the
   * `except` branch reports its error: status 500 and one failure notice
   * with its text, or the second publish error leaving the handler.
   */
  lemma CompletedRun(
    event: RunEvent, env: Env, agent: string -> seq<StreamEvent>, clock: nat -> string,
    items: map<Key, Item>, rejections: map<Key, string>,
    successOutage: Option<string>, failureOutage: Option<string>)
    requires ReadBounds(event).Ok?
    requires Succeeds(Run(env, agent, clock, rejections, PeriodOf(event), ReadBounds(event).value.start),
                      Iterations(ReadBounds(event).value))
    ensures var bounds := ReadBounds(event).value;
      var run := Run(env, agent, clock, rejections, PeriodOf(event), bounds.start);
      var n := Iterations(bounds);
      var result := RunSpec(event, env, agent, clock, items, rejections, successOutage, failureOutage);
      && Processed(run, n) == n
      && (env.topicArn.None? || successOutage.None? ==> result.report.outcome == Completed(Ids(run, n)))
      && (env.topicArn.Some? && successOutage.Some? ==>
            result.report.outcome ==
              if failureOutage.Some? then Escaped(ServiceError(failureOutage.value))
              else Failed(ServiceError(successOutage.value)))
      && result.report.notices ==
           if env.topicArn.None? then []
           else if successOutage.None? then [SuccessNotice(env.topicArn.value, PeriodOf(event), Ids(run, n))]
           else if failureOutage.None?
           then [FailureNotice(env.topicArn.value, PeriodOf(event), ScalarText(StudentsIdOf(event)), successOutage.value)]
           else []
  {
    var bounds := ReadBounds(event).value;
    var run := Run(env, agent, clock, rejections, PeriodOf(event), bounds.start);
    var n := Iterations(bounds);
    ProcessedStopsAt(run, n, n);
  }

  /** The ids a completed run returns are start ... start + loop_count - 1, in ascending order. */
  lemma CompletedIds(
    event: RunEvent, env: Env, agent: string -> seq<StreamEvent>, clock: nat -> string,
    items: map<Key, Item>, rejections: map<Key, string>,
    successOutage: Option<string>, failureOutage: Option<string>)
    requires ReadBounds(event).Ok?
    requires Succeeds(Run(env, agent, clock, rejections, PeriodOf(event), ReadBounds(event).value.start),
                      Iterations(ReadBounds(event).value))
    requires env.topicArn.None? || successOutage.None?
    ensures var bounds := ReadBounds(event).value;
      var outcome := RunSpec(event, env, agent, clock, items, rejections, successOutage, failureOutage).report.outcome;
      && outcome.Completed?
      && |outcome.results| == Iterations(bounds)
      && forall k | 0 <= k < Iterations(bounds) :: outcome.results[k] == Show(bounds.start + k)
  {
    CompletedRun(event, env, agent, clock, items, rejections, successOutage, failureOutage);
  }

  /**
   * If iteration `m` is the first to raise, exactly `m` iterations complete,
   * no success notice is sent, the status is 500 (or the exception leaves
   * the handler when the topic cannot publish), and one failure notice with
   * `str(e)` is sent exactly when a topic is configured and can publish.
   */
  lemma FailedRun(
    event: RunEvent, env: Env, agent: string -> seq<StreamEvent>, clock: nat -> string,
    items: map<Key, Item>, rejections: map<Key, string>,
    successOutage: Option<string>, failureOutage: Option<string>, m: nat)
    requires ReadBounds(event).Ok? && m < Iterations(ReadBounds(event).value)
    requires var run := Run(env, agent, clock, rejections, PeriodOf(event), ReadBounds(event).value.start);
      Succeeds(run, m) && Iteration(run, m).Err?
    ensures var run := Run(env, agent, clock, rejections, PeriodOf(event), ReadBounds(event).value.start);
      var failure := Iteration(run, m).error;
      var result := RunSpec(event, env, agent, clock, items, rejections, successOutage, failureOutage);
      && Processed(run, Iterations(ReadBounds(event).value)) == m
      && result.report.outcome ==
           (if env.topicArn.Some? && failureOutage.Some? then Escaped(ServiceError(failureOutage.value)) else Failed(failure))
      && result.report.notices ==
           if env.topicArn.Some? && failureOutage.None?
           then [FailureNotice(env.topicArn.value, PeriodOf(event), ScalarText(StudentsIdOf(event)), Describe(failure))]
           else []
  {
    var run := Run(env, agent, clock, rejections, PeriodOf(event), ReadBounds(event).value.start);
    ProcessedStopsAt(run, m, Iterations(ReadBounds(event).value));
  }

  /** The `except` branch of the handler. */
  method ReportFailure(env: Env, period: string, startId: string, failure: Failure, sns: NotificationService)
    returns (outcome: Outcome)
    modifies sns
    ensures outcome == Abort(env, period, startId, failure, sns.failureOutage).outcome
    ensures sns.log == old(sns.log) + Abort(env, period, startId, failure, sns.failureOutage).notices
  {
    outcome := Failed(failure);
    if env.topicArn.Some? {
      var error := sns.Publish(FailureNotice(env.topicArn.value, period, startId, Describe(failure)));
      if error.Some? {
        outcome := Escaped(ServiceError(error.value));
      }
    }
  }

  /**
   * One pass of the loop body for iteration `i`: read the two agent
   * variables, invoke the agent and read its stream, then store the answer
   * with the sanitised time. Either iteration `i` raises and the table is
   * unchanged, or its entry is written under its key.
   */
  method RunIteration(run: Run, i: nat, currentId: int, table: EvaluationTable) returns (failure: Option<Failure>)
    requires currentId == run.start + i
    requires table.rejections == run.rejections
    modifies table
    ensures failure.None? <==> Iteration(run, i).Ok?
    ensures failure.Some? ==> failure.value == Iteration(run, i).error && table.items == old(table.items)
    ensures failure.None? ==>
      table.items == SetEvaluation(old(table.items), KeyAt(run, i), Iteration(run, i).value.evaluation, Iteration(run, i).value.date)
  {
    if run.env.agentId.None? {
      return Some(MissingVariable("AGENT_ID"));
    }
    if run.env.agentAliasId.None? {
      return Some(MissingVariable("AGENT_ALIAS_ID"));
    }
    var answer := ReadCompletion(run.agent(Prompt(currentId, run.period)));
    if answer.Err? {
      return Some(ServiceError(answer.error));
    }
    var timestamp := Sanitise(run.clock(i));
    var error := table.UpdateEvaluation(Key(Show(currentId), run.period), answer.value, timestamp);
    if error.Some? {
      return Some(ServiceError(error.value));
    }
    failure := None;
  }

  /**
   * The `for i in range(loop_count)` loop: runs the iterations in order and
   * stops at the first that raises, returning the ids processed so far and
   * the exception.
   */
  method ProcessStudents(run: Run, n: nat, table: EvaluationTable) returns (results: seq<string>, failure: Option<Failure>)
    requires table.rejections == run.rejections
    modifies table
    ensures var m := Processed(run, n);
      && results == Ids(run, m)
      && table.items == Applied(run, old(table.items), m)
      && (failure.None? <==> m == n)
      && (failure.Some? ==> failure.value == Iteration(run, m).error)
  {
    results := [];
    var currentId := run.start;
    var i: nat := 0;
    while i < n
      invariant i <= n
      invariant currentId == run.start + i
      invariant Succeeds(run, i)
      invariant table.items == Applied(run, old(table.items), i)
      invariant results == Ids(run, i)
    {
      failure := RunIteration(run, i, currentId, table);
      if failure.Some? {
        ProcessedStopsAt(run, i, n);
        return;
      }
      SucceedsNext(run, i);
      IdsNext(run, i);
      results := results + [Show(currentId)];
      currentId := currentId + 1;
      i := i + 1;
    }
    ProcessedStopsAt(run, n, n);
    failure := None;
  }

  /** `lambda_handler`: the whole run, with exactly the effect `RunSpec` gives. */
  method HandleRun(
    event: RunEvent, env: Env, agent: string -> seq<StreamEvent>, clock: nat -> string,
    table: EvaluationTable, sns: NotificationService)
    returns (outcome: Outcome)
    modifies table, sns
    ensures var spec := RunSpec(event, env, agent, clock, old(table.items), table.rejections,
                                sns.successOutage, sns.failureOutage);
      && outcome == spec.report.outcome
      && table.items == spec.items
      && sns.log == old(sns.log) + spec.report.notices
  {
    var period := PeriodOf(event);
    var startId := ScalarText(StudentsIdOf(event));
    var bounds := ReadBounds(event);
    if bounds.Err? {
      outcome := ReportFailure(env, period, startId, bounds.error, sns);
      return;
    }
    var run := Run(env, agent, clock, table.rejections, period, bounds.value.start);
    var results, failure := ProcessStudents(run, Iterations(bounds.value), table);
    if failure.Some? {
      outcome := ReportFailure(env, period, startId, failure.value, sns);
      return;
    }
    if env.topicArn.Some? {
      var error := sns.Publish(SuccessNotice(env.topicArn.value, period, results));
      if error.Some? {
        outcome := ReportFailure(env, period, startId, ServiceError(error.value), sns);
        return;
      }
    }
    outcome := Completed(results);
  }

  /** The subject line of a published notice. */
  function Subject(notice: Notice): string {
    if notice.SuccessNotice? then SuccessSubject else FailureSubject
  }

  /** Python's `repr` of a list of id strings, e.g. `['1', '2']`. */
  function IdListText(ids: seq<string>): string {
    "[" + JoinQuoted(ids) + "]"
  }

  /** The ids separated by `, `, each between single quotes: its `repr`, by `ReprShow`. */
  function JoinQuoted(ids: seq<string>): string {
    if ids == [] then ""
    else if |ids| == 1 then "'" + ids[0] + "'"
    else "'" + ids[0] + "', " + JoinQuoted(ids[1..])
  }

  /** `repr(str(n))` is the decimal text in single quotes, as the id list shows each id. */
  lemma ReprShow(n: int)
    ensures Repr(Show(n)) == "'" + Show(n) + "'"
  {
    ShowChars(n);
    ReprPlain(Show(n));
  }

  /** Listing two non-empty runs of ids one after the other joins them with `, `. */
  lemma {:induction false} JoinQuotedAppend(a: seq<string>, b: seq<string>)
    requires a != [] && b != []
    ensures JoinQuoted(a + b) == JoinQuoted(a) + ", " + JoinQuoted(b)
  {
    if |a| > 1 {
      assert (a + b)[1..] == a[1..] + b;
      JoinQuotedAppend(a[1..], b);
    } else {
      assert (a + b)[1..] == b;
    }
  }

  /** The ids of the default run, and of a run without iterations, as the success message lists them. */
  lemma DefaultIdList()
    ensures IdListText(["1", "2", "3"]) == "['1', '2', '3']"
    ensures IdListText([]) == "[]"
  {
    assert JoinQuoted(["3"]) == "'3'";
    assert JoinQuoted(["2", "3"]) == "'2', '3'" by {
      assert ["2", "3"][1..] == ["3"];
    }
    assert JoinQuoted(["1", "2", "3"]) == "'1', '2', '3'" by {
      assert ["1", "2", "3"][1..] == ["2", "3"];
    }
  }

  /** The message text of a published notice. */
  function MessageText(notice: Notice): string {
    match notice
    case SuccessNotice(_, period, ids) =>
      "以下の生徒IDの評価処理が正常に完了しました。\n期間: " + period + "\n処理したID: " + IdListText(ids)
    case FailureNotice(_, period, startId, error) =>
      "処理中にエラーが発生しました。\n期間: " + period + "\n開始ID: " + startId + "\nエラー: " + error
  }
}
