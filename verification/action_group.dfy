/**
 * The action-group Lambda that a Bedrock agent calls to read a student's
 * evaluation. The event names the action group and the function the agent
 * chose, and carries the function's arguments as a list of name/value
 * parameters; the handler answers with a text body wrapped in an envelope
 * that echoes the request.
 *
 * The table is an injected value (rows per key, or the error text a query
 * raises), and `json.dumps` is an injected function that may raise.
 */
module ActionGroup {
  import opened Values
  import opened Records

  const GetDataFunction := "get-data-from-dynamodb"
  const BothRequiredText := "学生IDと期間の両方が必要です。"
  const NotFoundText := "指定された学生IDと期間のデータは見つかりませんでした。"
  const InternalErrorText := "Internal server error"
  const BadRequest := 400
  const InternalServerError := 500

  /** One entry of `parameters`; a `None` field is a missing dictionary key. */
  datatype Parameter = Parameter(name: Option<string>, value: Option<string>)

  /** The fields of the agent's event that the handler reads. */
  datatype ActionEvent = ActionEvent(
    actionGroup: Option<string>,
    functionName: Option<string>,
    messageVersion: Option<Scalar>,
    parameters: Option<seq<Parameter>>)

  /** The table as `query` sees it: the items under each key, or whether every query raises. */
  datatype Table = Table(rows: map<Key, seq<Item>>, queryFails: bool)

  /** The dictionary `get_student_evaluation` returns. */
  datatype EvaluationData =
    | NotFound(message: string)
    | Found(studentsId: string, period: string, data: seq<Item>)

  /** The exceptions the handler distinguishes: `KeyError(key)` and any other. */
  datatype Raised = KeyError(key: string) | OtherError

  datatype Response =
    | ActionResponse(actionGroup: string, functionName: string, body: string, messageVersion: Scalar)
    | HttpError(statusCode: int, body: string)

  /** Python truthiness of an optional string: `None` and `""` are false. */
  predicate Truthy(v: Option<string>) {
    v.Some? && v.value != ""
  }

  /** `param['name'] == key` holds for every parameter before index `i`. */
  ghost predicate PassesBefore(params: seq<Parameter>, key: string, i: int)
    requires 0 <= i <= |params|
  {
    forall j | 0 <= j < i :: params[j].name.Some? && params[j].name.value != key
  }

  /** The scan for `key` stops at index `i`: the first parameter that is unnamed or named `key`. */
  ghost predicate StopsAt(params: seq<Parameter>, key: string, i: int) {
    && 0 <= i < |params|
    && PassesBefore(params, key, i)
    && (params[i].name.None? || params[i].name.value == key)
  }

  /**
   * `next((p['value'] for p in params if p['name'] == key), None)`: the
   * value of the first parameter named `key`, `None` when no parameter has
   * that name, and `KeyError` when a parameter scanned before the match has
   * no name or the match has no value.
   */
  function FindParameter(params: seq<Parameter>, key: string): (r: Result<Option<string>, Raised>)
    ensures r.Err? ==> r.error == KeyError("name") || r.error == KeyError("value")
    ensures PassesBefore(params, key, |params|) ==> r == Ok(None)
    ensures forall i | StopsAt(params, key, i) ::
      r == if params[i].name.None? then Err(KeyError("name"))
           else if params[i].value.None? then Err(KeyError("value"))
           else Ok(params[i].value)
  {
    if params == [] then Ok(None)
    else
      var p := params[0];
      if p.name.None? then Err(KeyError("name"))
      else if p.name.value == key then
        (if p.value.None? then Err(KeyError("value")) else Ok(p.value))
      else
        var r := FindParameter(params[1..], key);
        assert forall i | StopsAt(params, key, i) :: i > 0 && StopsAt(params[1..], key, i - 1);
        r
  }

  /**
   * `table.query(...)` for both key parts, with `response.get('Items', [])`:
   * this defines the injected table's behaviour.
   */
  function Query(table: Table, key: Key): Result<seq<Item>, Raised> {
    if table.queryFails then Err(OtherError)
    else if key in table.rows then Ok(table.rows[key])
    else Ok([])
  }

  /**
   * `get_student_evaluation`: a "not found" message when the query returns
   * no item, otherwise the inputs together with exactly the items returned.
   * A query error is re-raised.
   */
  function GetStudentEvaluation(table: Table, studentsId: string, period: string): (r: Result<EvaluationData, Raised>)
    ensures r.Err? <==> table.queryFails
    ensures r.Err? ==> r.error == OtherError
    ensures r.Ok? ==>
      (r.value.NotFound? <==> Key(studentsId, period) !in table.rows || table.rows[Key(studentsId, period)] == [])
    ensures r.Ok? && r.value.NotFound? ==> r.value.message == NotFoundText
    ensures r.Ok? && r.value.Found? ==>
      && r.value.studentsId == studentsId && r.value.period == period
      && r.value.data == table.rows[Key(studentsId, period)]
  {
    var items :- Query(table, Key(studentsId, period));
    if items == [] then Ok(NotFound(NotFoundText))
    else Ok(Found(studentsId, period, items))
  }

  function NotImplementedText(functionName: string): string {
    "関数 " + functionName + " は実装されていません。"
  }

  /** The text body the handler computes for `function`, or the exception raised on the way. */
  function ResponseBody(
    functionName: string, params: seq<Parameter>, table: Table, dumps: EvaluationData -> Option<string>
  ): (r: Result<string, Raised>)
    ensures functionName != GetDataFunction ==> r == Ok(NotImplementedText(functionName))
    ensures functionName == GetDataFunction && FindParameter(params, "students_id").Ok?
              && FindParameter(params, "period").Ok?
              && !(Truthy(FindParameter(params, "students_id").value) && Truthy(FindParameter(params, "period").value))
            ==> r == Ok(BothRequiredText)
  {
    if functionName != GetDataFunction then Ok(NotImplementedText(functionName))
    else
      var studentsId :- FindParameter(params, "students_id");
      var period :- FindParameter(params, "period");
      if !Truthy(studentsId) || !Truthy(period) then Ok(BothRequiredText)
      else
        var data :- GetStudentEvaluation(table, studentsId.value, period.value);
        match dumps(data)
        case Some(text) => Ok(text)
        case None => Err(OtherError)
  }

  function KeyErrorResponse(key: string): Response {
    HttpError(BadRequest, "Error: '" + key + "'")
  }

  /**
   * `lambda_handler`: a missing `actionGroup` or `function` key, or a
   * `KeyError` raised while reading the parameters, gives 400; any other
   * exception gives 500; otherwise the body is wrapped in an envelope that
   * echoes the action group, the function and the message version.
   */
  function Handle(event: ActionEvent, table: Table, dumps: EvaluationData -> Option<string>): (r: Response)
    ensures event.actionGroup.None? ==> r == HttpError(400, "Error: 'actionGroup'")
    ensures event.actionGroup.Some? && event.functionName.None? ==> r == HttpError(400, "Error: 'function'")
    ensures r.ActionResponse? ==>
      && event.actionGroup == Some(r.actionGroup)
      && event.functionName == Some(r.functionName)
      && r.messageVersion == event.messageVersion.GetOr(Int(1))
    ensures r.HttpError? ==> r.statusCode == 400 || r == HttpError(500, "Internal server error")
    ensures event.actionGroup.Some? && event.functionName.Some? && event.functionName.value != GetDataFunction ==>
      r == ActionResponse(event.actionGroup.value, event.functionName.value,
                          NotImplementedText(event.functionName.value), event.messageVersion.GetOr(Int(1)))
  {
    if event.actionGroup.None? then
      assert "Error: '" + "actionGroup" + "'" == "Error: 'actionGroup'";
      KeyErrorResponse("actionGroup")
    else if event.functionName.None? then
      assert "Error: '" + "function" + "'" == "Error: 'function'";
      KeyErrorResponse("function")
    else
      var actionGroup, functionName := event.actionGroup.value, event.functionName.value;
      var messageVersion := event.messageVersion.GetOr(Int(1));
      var params := event.parameters.GetOr([]);
      match ResponseBody(functionName, params, table, dumps)
      case Ok(body) => ActionResponse(actionGroup, functionName, body, messageVersion)
      case Err(KeyError(key)) => KeyErrorResponse(key)
      case Err(OtherError) => HttpError(InternalServerError, InternalErrorText)
  }

  /**
   * A `KeyError` raised while scanning the parameters for `students_id`, or
   * for `period` after the `students_id` scan succeeded (found or not), is
   * answered with 400 and `Error: 'name'` or `Error: 'value'`.
   */
  lemma ScanKeyError(event: ActionEvent, table: Table, dumps: EvaluationData -> Option<string>, key: string)
    requires event.actionGroup.Some? && event.functionName == Some(GetDataFunction)
    requires var params := event.parameters.GetOr([]);
      || FindParameter(params, "students_id") == Err(KeyError(key))
      || (FindParameter(params, "students_id").Ok? && FindParameter(params, "period") == Err(KeyError(key)))
    ensures key == "name" || key == "value"
    ensures Handle(event, table, dumps) == HttpError(400, "Error: '" + key + "'")
  {
  }

  /** A call without `parameters` asks for the data but gets the "both required" text. */
  lemma NoParametersNeedsBoth(event: ActionEvent, table: Table, dumps: EvaluationData -> Option<string>)
    requires event.actionGroup.Some? && event.functionName == Some(GetDataFunction)
    requires event.parameters.None?
    ensures Handle(event, table, dumps).ActionResponse?
    ensures Handle(event, table, dumps).body == BothRequiredText
  {
  }

  /**
   * The table is only consulted when the function is `get-data-from-dynamodb`
   * and both values are present and non-empty: in every other case two
   * different tables give the same response.
   */
  lemma TableUntouchedUnlessBothGiven(
    event: ActionEvent, t1: Table, t2: Table, dumps: EvaluationData -> Option<string>)
    requires event.actionGroup.Some? && event.functionName.Some?
    requires var params := event.parameters.GetOr([]);
      || event.functionName.value != GetDataFunction
      || FindParameter(params, "students_id").Err?
      || FindParameter(params, "period").Err?
      || !Truthy(FindParameter(params, "students_id").value)
      || !Truthy(FindParameter(params, "period").value)
    ensures Handle(event, t1, dumps) == Handle(event, t2, dumps)
  {
  }

  /**
   * On the data path with both values present, the body is the serialised
   * evaluation data for exactly those values, and a query or serialisation
   * error becomes a 500.
   */
  lemma DataPath(event: ActionEvent, table: Table, dumps: EvaluationData -> Option<string>, studentsId: string, period: string)
    requires event.actionGroup.Some? && event.functionName == Some(GetDataFunction)
    requires FindParameter(event.parameters.GetOr([]), "students_id") == Ok(Some(studentsId)) && studentsId != ""
    requires FindParameter(event.parameters.GetOr([]), "period") == Ok(Some(period)) && period != ""
    ensures var r := Handle(event, table, dumps);
      match GetStudentEvaluation(table, studentsId, period)
      case Err(_) => r == HttpError(500, InternalErrorText)
      case Ok(data) =>
        if dumps(data).Some? then r.ActionResponse? && r.body == dumps(data).value
        else r == HttpError(500, InternalErrorText)
  {
  }
}
