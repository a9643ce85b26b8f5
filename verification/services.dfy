/**
 * The two services the orchestration handler changes: the evaluation table,
 * which `update_item` writes one key at a time, and the notification topic,
 * which keeps every message published to it. Both are held as mutable state;
 * the errors they raise are fixed when they are created.
 */
module Services {
  import opened Values
  import opened Records

  const AgentEvaluation := "agent_evaluation"
  const EvaluationDate := "evaluation_date"

  function Lookup<K, V>(m: map<K, V>, k: K): (r: Option<V>)
    ensures r.Some? <==> k in m
    ensures r.Some? ==> r.value == m[k]
  {
    if k in m then Some(m[k]) else None
  }

  /**
   * The item left under `key` by `SET agent_evaluation = :eval,
   * evaluation_date = :date`: a missing item is created with its key
   * attributes; an existing one keeps every other attribute.
   */
  function Stamped(current: Option<Item>, key: Key, evaluation: string, date: string): (r: Item)
    ensures AgentEvaluation in r && r[AgentEvaluation] == S(evaluation)
    ensures EvaluationDate in r && r[EvaluationDate] == S(date)
    ensures current.Some? ==> r.Keys == current.value.Keys + {AgentEvaluation, EvaluationDate}
    ensures current.Some? ==>
      forall a | a in current.value && a != AgentEvaluation && a != EvaluationDate :: r[a] == current.value[a]
    ensures current.None? ==>
      && r.Keys == {"students_id", "period", AgentEvaluation, EvaluationDate}
      && r["students_id"] == S(key.studentsId) && r["period"] == S(key.period)
  {
    var base := if current.Some? then current.value
                else map["students_id" := S(key.studentsId), "period" := S(key.period)];
    base[AgentEvaluation := S(evaluation)][EvaluationDate := S(date)]
  }

  /** The whole table after a successful `update_item` on `key`: no other key changes. */
  function SetEvaluation(items: map<Key, Item>, key: Key, evaluation: string, date: string): (r: map<Key, Item>)
    ensures r.Keys == items.Keys + {key}
    ensures r[key] == Stamped(Lookup(items, key), key, evaluation, date)
    ensures forall k | k in items && k != key :: r[k] == items[k]
  {
    items[key := Stamped(Lookup(items, key), key, evaluation, date)]
  }

  class EvaluationTable {
    var items: map<Key, Item>
    /** The keys whose `update_item` raises, with the error text. */
    const rejections: map<Key, string>

    constructor (items: map<Key, Item>, rejections: map<Key, string>)
      ensures this.items == items && this.rejections == rejections
    {
      this.items := items;
      this.rejections := rejections;
    }

    /** `table.update_item(...)` setting the agent's evaluation and its date under `key`. */
    method UpdateEvaluation(key: Key, evaluation: string, date: string) returns (error: Option<string>)
      modifies this
      ensures error == Lookup(rejections, key)
      ensures items == if key in rejections then old(items) else SetEvaluation(old(items), key, evaluation, date)
    {
      if key in rejections {
        error := Some(rejections[key]);
      } else {
        items := SetEvaluation(items, key, evaluation, date);
        error := None;
      }
    }
  }

  /** A message the handler publishes: the run's success or its failure. */
  datatype Notice =
    | SuccessNotice(topicArn: string, period: string, ids: seq<string>)
    | FailureNotice(topicArn: string, period: string, startId: string, error: string)

  class NotificationService {
    var log: seq<Notice>
    /** When present, publishing a success notice raises with this text. */
    const successOutage: Option<string>
    /** When present, publishing a failure notice raises with this text. */
    const failureOutage: Option<string>

    constructor (successOutage: Option<string>, failureOutage: Option<string>)
      ensures log == [] && this.successOutage == successOutage && this.failureOutage == failureOutage
    {
      log := [];
      this.successOutage := successOutage;
      this.failureOutage := failureOutage;
    }

    /** The error publishing `notice` raises, if any. */
    function OutageFor(notice: Notice): Option<string> {
      if notice.SuccessNotice? then successOutage else failureOutage
    }

    /** `sns.publish(...)`: appends the notice, or raises and keeps the log as it was. */
    method Publish(notice: Notice) returns (error: Option<string>)
      modifies this
      ensures error == OutageFor(notice)
      ensures log == if error.None? then old(log) + [notice] else old(log)
    {
      error := OutageFor(notice);
      if error.None? {
        log := log + [notice];
      }
    }
  }
}
