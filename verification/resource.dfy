/**
 * `ResourceClient` of hpOneView/resources/resource.py: the generic CRUD client
 * every OneView resource type is built on.
 *
 * The client talks to two collaborators, the REST connection and the activity
 * tracker (`activity`), and holds nothing that changes except what it has
 * asked them. Both are modelled as one environment `Env`: a total function
 * from the history of calls made so far and the next call to that call's
 * reply. The client keeps the history in `log`. Each operation is a method
 * that issues its calls one at a time, and is proved to return and log
 * exactly what a pure `...Run` function computes from the environment and the
 * history; the lemmas below state the client's behaviour on those functions.
 */
module Resource {
  import opened Values
  import opened Text
  import opened PercentEncoding
  import opened ResourceUris
  import Common

  /** A request to one of the two collaborators. */
  datatype Call =
    | HttpGet(uri: string)
    | HttpPost(uri: string, body: Value)
    | HttpPut(uri: string, body: Value)
    | HttpDelete(uri: string)
    | Wait4Task(task: Value, timeout: int, verbose: bool)
    | TaskAssociatedResource(task: Value)

  /**
   * A collaborator's answer: a value (for `post`, `put` and `delete`, the
   * pair `(task, body)`; for the others `first` alone), or an exception.
   */
  datatype Reply = Returned(first: Value, second: Value) | Raised(error: Error)

  /** The connection and the activity tracker, as seen from the client. */
  type Env = (seq<Call>, Call) -> Reply

  /** What an operation returns or raises, and the calls it made, in order. */
  datatype Run = Run(result: Result<Value, Error>, calls: seq<Call>)

  /** The time-out `create` and `update` wait for their task with. */
  const TASK_TIMEOUT := 60

  function FirstOf(reply: Reply): Result<Value, Error>
  {
    match reply
    case Returned(v, _) => Ok(v)
    case Raised(e) => Err(e)
  }

  function Prepend(call: Call, run: Run): Run
  {
    Run(run.result, [call] + run.calls)
  }

  // ---------------------------------------------------------------------------
  // The operations, as functions of the environment and the history

  /** `connection.get(uri)`. */
  function FetchRun(env: Env, log: seq<Call>, uri: string): Run
  {
    Run(FirstOf(env(log, HttpGet(uri))), [HttpGet(uri)])
  }

  function GetMembersRun(env: Env, log: seq<Call>, uri: string): Run
  {
    match env(log, HttpGet(uri))
    case Raised(e) => Run(Err(e), [HttpGet(uri)])
    case Returned(page, _) => Run(Common.GetMembers(page), [HttpGet(uri)])
  }

  function GetAllRun(base: string, env: Env, log: seq<Call>, start: int, count: int,
                     filter: string, query: string, sort: string, view: string): Run
  {
    GetMembersRun(env, log, GetAllUri(base, start, count, filter, query, sort, view))
  }

  function GetByRun(base: string, env: Env, log: seq<Call>, field: Option<string>, value: string): Run
  {
    match GetByListUri(base, field, value)
    case Err(e) => Run(Err(e), [])
    case Ok(_) => GetAllRun(base, env, log, 0, -1, GetByFilter(field.value, value), "", "", "")
  }

  function GetByUriRun(base: string, env: Env, log: seq<Call>, uri: string): Run
  {
    match ByUriTarget(base, uri)
    case Err(e) => Run(Err(e), [])
    case Ok(u) => FetchRun(env, log, u)
  }

  function GetRun(base: string, env: Env, log: seq<Call>, idOrUri: Option<string>): Run
  {
    match GetTarget(base, idOrUri)
    case Err(e) => Run(Err(e), [])
    case Ok(u) => FetchRun(env, log, u)
  }

  function GetSchemaRun(base: string, env: Env, log: seq<Call>): Run
  {
    FetchRun(env, log, SchemaUri(base))
  }

  function BasicUpdateRun(env: Env, log: seq<Call>, resource: Value, uri: string): Run
  {
    match env(log, HttpPut(uri, resource))
    case Raised(e) => Run(Err(e), [HttpPut(uri, resource)])
    case Returned(_, body) => Run(Ok(body), [HttpPut(uri, resource)])
  }

  /**
   * Python's `'type' in task and task['type'].startswith('Task')` on the
   * waited task. On a mapping: false without a `type` key, a prefix test on a
   * string `type`, and AttributeError otherwise. On a string or a list the
   * `in` test is a substring or membership test whose success leads to a
   * TypeError on indexing; on anything else `in` itself raises TypeError.
   */
  function IsTaskType(task: Value): Result<bool, Error>
  {
    match task
    case Dict(m) =>
      if "type" !in m then Ok(false)
      else if m["type"].Str? then Ok(HasPrefix(m["type"].s, "Task"))
      else Err(RuntimeFailure("AttributeError"))
    case Str(s) => if Contains(s, "type") then Err(RuntimeFailure("TypeError")) else Ok(false)
    case List(items) => if Str("type") in items then Err(RuntimeFailure("TypeError")) else Ok(false)
    case _ => Err(RuntimeFailure("TypeError"))
  }

  /** `resource['resourceUri']` on the associated resource of a task. */
  function ResourceUriOf(resource: Value): Result<string, Error>
  {
    match resource
    case Dict(m) =>
      if "resourceUri" !in m then Err(RuntimeFailure("KeyError"))
      else if m["resourceUri"].Str? then Ok(m["resourceUri"].s)
      else Err(RuntimeFailure("TypeError"))
    case _ => Err(RuntimeFailure("TypeError"))
  }

  /** `__wait_for_task`: wait, then fetch the resource a finished `Task...` is about. */
  function WaitForTaskRun(env: Env, log: seq<Call>, task: Value, tout: int): Run
  {
    var wait := Wait4Task(task, tout, false);
    match env(log, wait)
    case Raised(e) => Run(Err(e), [wait])
    case Returned(waited, _) =>
      match IsTaskType(waited)
      case Err(e) => Run(Err(e), [wait])
      case Ok(isTask) =>
        if !isTask then Run(Ok(Null), [wait])
        else
          var assoc := TaskAssociatedResource(waited);
          match env(log + [wait], assoc)
          case Raised(e) => Run(Err(e), [wait, assoc])
          case Returned(resource, _) =>
            match ResourceUriOf(resource)
            case Err(e) => Run(Err(e), [wait, assoc])
            case Ok(u) => Prepend(wait, Prepend(assoc, FetchRun(env, log + [wait, assoc], u)))
  }

  function CreateRun(base: string, env: Env, log: seq<Call>, resource: Value, blocking: bool): Run
  {
    if !Truthy(resource) then Run(Err(ValueError(RESOURCE_WAS_NOT_PROVIDED)), [])
    else
      var post := HttpPost(base, resource);
      match env(log, post)
      case Raised(e) => Run(Err(e), [post])
      case Returned(task, _) =>
        if blocking then Prepend(post, WaitForTaskRun(env, log + [post], task, TASK_TIMEOUT))
        else Run(Ok(task), [post])
  }

  function UpdateRun(env: Env, log: seq<Call>, resource: Value, blocking: bool): Run
  {
    match UpdateTarget(resource)
    case Err(e) => Run(Err(e), [])
    case Ok(uri) =>
      var put := HttpPut(uri, resource);
      match env(log, put)
      case Raised(e) => Run(Err(e), [put])
      case Returned(task, _) =>
        if blocking then Prepend(put, WaitForTaskRun(env, log + [put], task, TASK_TIMEOUT))
        else Run(Ok(task), [put])
  }

  function DeleteRun(base: string, env: Env, log: seq<Call>, resource: Value, force: bool,
                     blocking: bool, verbose: bool, timeout: int): Run
  {
    match DeleteTarget(base, resource, force)
    case Err(e) => Run(Err(e), [])
    case Ok(uri) =>
      var del := HttpDelete(uri);
      match env(log, del)
      case Raised(e) => Run(Err(e), [del])
      case Returned(task, _) =>
        if blocking then Prepend(del, FetchWaited(env, log + [del], task, timeout, verbose))
        else Run(Ok(task), [del])
  }

  /** `activity.wait4task(task, tout, verbose)`, whose reply is the waited task. */
  function FetchWaited(env: Env, log: seq<Call>, task: Value, timeout: int, verbose: bool): Run
  {
    Run(FirstOf(env(log, Wait4Task(task, timeout, verbose))), [Wait4Task(task, timeout, verbose)])
  }

  // ---------------------------------------------------------------------------
  // The client

  class ResourceClient {
    /** The collection URI (`_uri`). */
    const uri: string
    /** The connection and the activity tracker (`_connection`, `_activity`). */
    const env: Env
    /** Every call issued so far, oldest first. */
    var log: seq<Call>

    constructor (env: Env, uri: string)
      ensures this.uri == uri && this.env == env && log == []
    {
      this.uri := uri;
      this.env := env;
      log := [];
    }

    /** Hands one call to the collaborators and records it. */
    method Issue(call: Call) returns (reply: Reply)
      modifies this
      ensures reply == env(old(log), call) && log == old(log) + [call]
    {
      reply := env(log, call);
      log := log + [call];
    }

    method GetMembers(u: string) returns (r: Result<Value, Error>)
      modifies this
      ensures var run := GetMembersRun(env, old(log), u);
              r == run.result && log == old(log) + run.calls
    {
      var reply := Issue(HttpGet(u));
      match reply
      case Raised(e) =>
        r := Err(e);
      case Returned(page, _) =>
        r := Common.GetMembers(page);
    }

    method GetAll(start: int, count: int, filter: string, query: string, sort: string, view: string)
      returns (r: Result<Value, Error>)
      modifies this
      ensures var run := GetAllRun(uri, env, old(log), start, count, filter, query, sort, view);
              r == run.result && log == old(log) + run.calls
    {
      var f, q, s, v := filter, query, sort, view;
      if f != "" {
        f := "&filter=" + Quote(f);
      }
      if q != "" {
        q := "&query=" + Quote(q);
      }
      if s != "" {
        s := "&sort=" + Quote(s);
      }
      if v != "" {
        v := "&view=" + Quote(v);
      }
      ParamPrefixes();
      assert f == OptionalParam("filter", filter) && q == OptionalParam("query", query);
      assert s == OptionalParam("sort", sort) && v == OptionalParam("view", view);
      var u := uri + "?start=" + IntToDecimal(start) + "&count=" + IntToDecimal(count) + f + q + s + v;
      assert u == GetAllUri(uri, start, count, filter, query, sort, view);
      r := GetMembers(u);
    }

    method Delete(resource: Value, force: bool, blocking: bool, verbose: bool, timeout: int)
      returns (r: Result<Value, Error>)
      modifies this
      ensures var run := DeleteRun(uri, env, old(log), resource, force, blocking, verbose, timeout);
              r == run.result && log == old(log) + run.calls
    {
      if !Truthy(resource) {
        return Err(ValueError(RESOURCE_WAS_NOT_PROVIDED));
      }
      var target: string;
      if resource.Dict? {
        if "uri" in resource.fields && Truthy(resource.fields["uri"]) {
          if !resource.fields["uri"].Str? {
            return Err(RuntimeFailure("TypeError"));
          }
          target := resource.fields["uri"].s;
        } else {
          return Err(UnknownType(UNKNOWN_OBJECT_TYPE));
        }
      } else if resource.Str? {
        target := uri + "/" + resource.s;
      } else {
        return Err(RuntimeFailure("TypeError"));
      }
      if force {
        target := target + FORCE_FLAG;
      }
      var reply := Issue(HttpDelete(target));
      match reply
      case Raised(e) =>
        r := Err(e);
      case Returned(task, _) =>
        r := Ok(task);
        if blocking {
          var waited := Issue(Wait4Task(task, timeout, verbose));
          r := FirstOf(waited);
        }
    }

    method GetSchema() returns (r: Result<Value, Error>)
      modifies this
      ensures var run := GetSchemaRun(uri, env, old(log));
              r == run.result && log == old(log) + run.calls
    {
      var reply := Issue(HttpGet(uri + "/schema"));
      r := FirstOf(reply);
    }

    method Get(idOrUri: Option<string>) returns (r: Result<Value, Error>)
      modifies this
      ensures var run := GetRun(uri, env, old(log), idOrUri);
              r == run.result && log == old(log) + run.calls
    {
      if idOrUri == None || idOrUri == Some("") {
        return Err(ValueError(INVALID_ID));
      }
      var id := idOrUri.value;
      if '/' in id {
        r := GetByUri(id);
        return;
      }
      var reply := Issue(HttpGet(uri + "/" + id));
      r := FirstOf(reply);
    }

    method BasicUpdate(resource: Value, u: string) returns (r: Result<Value, Error>)
      modifies this
      ensures var run := BasicUpdateRun(env, old(log), resource, u);
              r == run.result && log == old(log) + run.calls
    {
      var reply := Issue(HttpPut(u, resource));
      match reply
      case Raised(e) =>
        r := Err(e);
      case Returned(_, body) =>
        r := Ok(body);
    }

    method Update(resource: Value, blocking: bool) returns (r: Result<Value, Error>)
      modifies this
      ensures var run := UpdateRun(env, old(log), resource, blocking);
              r == run.result && log == old(log) + run.calls
    {
      if !Truthy(resource) {
        return Err(ValueError(RESOURCE_WAS_NOT_PROVIDED));
      }
      var target := UpdateTarget(resource);
      if target.Err? {
        return Err(target.error);
      }
      var reply := Issue(HttpPut(target.value, resource));
      match reply
      case Raised(e) =>
        r := Err(e);
      case Returned(task, _) =>
        if blocking {
          r := WaitForTask(task, TASK_TIMEOUT);
        } else {
          r := Ok(task);
        }
    }

    method Create(resource: Value, blocking: bool) returns (r: Result<Value, Error>)
      modifies this
      ensures var run := CreateRun(uri, env, old(log), resource, blocking);
              r == run.result && log == old(log) + run.calls
    {
      if !Truthy(resource) {
        return Err(ValueError(RESOURCE_WAS_NOT_PROVIDED));
      }
      var reply := Issue(HttpPost(uri, resource));
      match reply
      case Raised(e) =>
        r := Err(e);
      case Returned(task, _) =>
        if blocking {
          r := WaitForTask(task, TASK_TIMEOUT);
        } else {
          r := Ok(task);
        }
    }

    /** `__wait_for_task`: `Null` stands for the implicit `None` of a task that is not a `Task...`. */
    method WaitForTask(task: Value, tout: int) returns (r: Result<Value, Error>)
      modifies this
      ensures var run := WaitForTaskRun(env, old(log), task, tout);
              r == run.result && log == old(log) + run.calls
    {
      var reply := Issue(Wait4Task(task, tout, false));
      if reply.Raised? {
        return Err(reply.error);
      }
      var waited := reply.first;
      var isTask := IsTaskType(waited);
      if isTask.Err? {
        return Err(isTask.error);
      }
      if !isTask.value {
        return Ok(Null);
      }
      var assoc := Issue(TaskAssociatedResource(waited));
      if assoc.Raised? {
        return Err(assoc.error);
      }
      var resourceUri := ResourceUriOf(assoc.first);
      if resourceUri.Err? {
        return Err(resourceUri.error);
      }
      assert log == old(log) + [Wait4Task(task, tout, false), TaskAssociatedResource(waited)];
      var entity := Issue(HttpGet(resourceUri.value));
      r := FirstOf(entity);
      assert log == old(log) + ([Wait4Task(task, tout, false)] +
                                ([TaskAssociatedResource(waited)] + [HttpGet(resourceUri.value)]));
    }

    method GetBy(field: Option<string>, value: string) returns (r: Result<Value, Error>)
      modifies this
      ensures var run := GetByRun(uri, env, old(log), field, value);
              r == run.result && log == old(log) + run.calls
    {
      if field == None || field == Some("") {
        return Err(ValueError(INVALID_FIELD));
      }
      var filter := "\"'" + field.value + "'='" + value + "'\"";
      assert filter == GetByFilter(field.value, value);
      r := GetAll(0, -1, filter, "", "", "");
    }

    method GetByUri(u: string) returns (r: Result<Value, Error>)
      modifies this
      ensures var run := GetByUriRun(uri, env, old(log), u);
              r == run.result && log == old(log) + run.calls
    {
      if Contains(u, uri) {
        var reply := Issue(HttpGet(u));
        r := FirstOf(reply);
      } else {
        r := Err(UnknownType(UNRECOGNIZED_URI));
      }
    }
  }

  // ---------------------------------------------------------------------------
  // What the client does

  /** Only `Wait4Task` call in the sequence is the one at index `i`. */
  predicate WaitsOnlyAt(calls: seq<Call>, i: int)
  {
    0 <= i < |calls| && calls[i].Wait4Task? &&
    forall j :: 0 <= j < |calls| && calls[j].Wait4Task? ==> j == i
  }

  predicate NoWait(calls: seq<Call>)
  {
    forall j :: 0 <= j < |calls| ==> !calls[j].Wait4Task?
  }

  /** Every call is a GET: the operation changes nothing on the appliance. */
  predicate ReadOnly(calls: seq<Call>)
  {
    forall j :: 0 <= j < |calls| ==> calls[j].HttpGet?
  }

  /**
   * The reads (`get`, `get_by_uri`, `get_all`, `get_by`, `get_schema`,
   * `get_members`) issue at most one request, a GET, and nothing at all
   * when their argument is refused.
   */
  lemma ReadsIssueAtMostOneGet(base: string, env: Env, log: seq<Call>, idOrUri: Option<string>,
                               u: string, start: int, count: int, filter: string, query: string,
                               sort: string, view: string, field: Option<string>, value: string)
    ensures var run := GetRun(base, env, log, idOrUri);
            ReadOnly(run.calls) && |run.calls| <= 1 && (run.calls == [] <==> run.result.Err? && GetTarget(base, idOrUri).Err?)
    ensures var run := GetByUriRun(base, env, log, u); ReadOnly(run.calls) && |run.calls| <= 1
    ensures var run := GetAllRun(base, env, log, start, count, filter, query, sort, view);
            run.calls == [HttpGet(GetAllUri(base, start, count, filter, query, sort, view))]
    ensures var run := GetByRun(base, env, log, field, value); ReadOnly(run.calls) && |run.calls| <= 1
    ensures GetSchemaRun(base, env, log).calls == [HttpGet(base + "/schema")]
    ensures GetMembersRun(env, log, u).calls == [HttpGet(u)]
  {
  }

  /** `get` fetches `base/id` for a plain id and defers to `get_by_uri` for anything with a `/`. */
  lemma GetDispatch(base: string, env: Env, log: seq<Call>, id: string)
    ensures id == "" ==> GetRun(base, env, log, Some(id)) == Run(Err(ValueError(INVALID_ID)), [])
    ensures GetRun(base, env, log, None) == Run(Err(ValueError(INVALID_ID)), [])
    ensures id != "" && '/' !in id ==>
            GetRun(base, env, log, Some(id)) == FetchRun(env, log, base + "/" + id)
    ensures '/' in id ==> GetRun(base, env, log, Some(id)) == GetByUriRun(base, env, log, id)
  {
  }

  /** `get_by` is `get_all` with only the `'field'='value'` filter. */
  lemma GetByIsFilteredGetAll(base: string, env: Env, log: seq<Call>, field: Option<string>, value: string)
    ensures field == None || field == Some("") ==>
            GetByRun(base, env, log, field, value) == Run(Err(ValueError(INVALID_FIELD)), [])
    ensures field.Some? && field.value != "" ==>
            GetByRun(base, env, log, field, value) ==
            GetAllRun(base, env, log, 0, -1, GetByFilter(field.value, value), "", "", "")
  {
  }

  /**
   * `get_all` hands the page to `get_members`: a transport error is passed
   * through, and otherwise the result is the page's members.
   */
  lemma GetAllReturnsMembers(base: string, env: Env, log: seq<Call>, start: int, count: int,
                             filter: string, query: string, sort: string, view: string)
    ensures var u := GetAllUri(base, start, count, filter, query, sort, view);
            var run := GetAllRun(base, env, log, start, count, filter, query, sort, view);
            run.result == match env(log, HttpGet(u))
                          case Raised(e) => Err(e)
                          case Returned(page, _) => Common.GetMembers(page)
  {
  }

  /**
   * `__wait_for_task` waits exactly once, without verbosity; a waited task
   * with no `type`, or whose `type` does not start with `Task`, yields `None`
   * after that one call; a `Task...` yields the GET of its associated
   * resource's `resourceUri`.
   */
  lemma WaitForTaskSpec(env: Env, log: seq<Call>, task: Value, tout: int)
    ensures var run := WaitForTaskRun(env, log, task, tout);
            1 <= |run.calls| <= 3 && WaitsOnlyAt(run.calls, 0) &&
            run.calls[0] == Wait4Task(task, tout, false)
    ensures var run := WaitForTaskRun(env, log, task, tout);
            var reply := env(log, Wait4Task(task, tout, false));
            reply.Returned? && IsTaskType(reply.first) == Ok(false) ==>
            run == Run(Ok(Null), [Wait4Task(task, tout, false)])
    ensures var run := WaitForTaskRun(env, log, task, tout);
            var wait := Wait4Task(task, tout, false);
            var reply := env(log, wait);
            reply.Returned? && IsTaskType(reply.first) == Ok(true) &&
            env(log + [wait], TaskAssociatedResource(reply.first)).Returned? &&
            ResourceUriOf(env(log + [wait], TaskAssociatedResource(reply.first)).first).Ok? ==>
            var u := ResourceUriOf(env(log + [wait], TaskAssociatedResource(reply.first)).first).value;
            var assoc := TaskAssociatedResource(reply.first);
            run.calls == [wait, assoc, HttpGet(u)] &&
            run.result == FirstOf(env(log + [wait, assoc], HttpGet(u)))
  {
    var run := WaitForTaskRun(env, log, task, tout);
    var wait := Wait4Task(task, tout, false);
    var reply := env(log, wait);
    if reply.Returned? && IsTaskType(reply.first) == Ok(true) {
      var assoc := TaskAssociatedResource(reply.first);
      if env(log + [wait], assoc).Returned? {
        var res := ResourceUriOf(env(log + [wait], assoc).first);
        if res.Ok? {
          assert run.calls == [wait] + ([assoc] + [HttpGet(res.value)]);
        }
      }
    }
  }

  /**
   * The waited task is a `Task...` exactly when it is a mapping whose string
   * `type` starts with `Task`; a mapping without `type` is not one.
   */
  lemma IsTaskTypeSpec(task: Value)
    ensures IsTaskType(task) == Ok(true) <==>
            task.Dict? && "type" in task.fields && task.fields["type"].Str? &&
            HasPrefix(task.fields["type"].s, "Task")
    ensures task.Dict? && "type" !in task.fields ==> IsTaskType(task) == Ok(false)
    ensures IsTaskType(Dict(map["type" := Str("TaskBlaBla")])) == Ok(true)
  {
  }

  /**
   * `create` refuses a falsy resource without calling anything; otherwise it
   * posts the resource to the collection. Without blocking it returns the
   * task and never waits; with blocking it waits on that task with the
   * 60-second time-out and returns what `__wait_for_task` gives.
   */
  lemma CreateSpec(base: string, env: Env, log: seq<Call>, resource: Value, blocking: bool)
    ensures !Truthy(resource) ==>
            CreateRun(base, env, log, resource, blocking) == Run(Err(ValueError(RESOURCE_WAS_NOT_PROVIDED)), [])
    ensures Truthy(resource) ==>
            var run := CreateRun(base, env, log, resource, blocking);
            |run.calls| >= 1 && run.calls[0] == HttpPost(base, resource)
    ensures Truthy(resource) && !blocking ==>
            var run := CreateRun(base, env, log, resource, blocking);
            run == Run(FirstOf(env(log, HttpPost(base, resource))), [HttpPost(base, resource)]) &&
            NoWait(run.calls)
    ensures Truthy(resource) && blocking && env(log, HttpPost(base, resource)).Returned? ==>
            var post := HttpPost(base, resource);
            var task := env(log, post).first;
            var run := CreateRun(base, env, log, resource, blocking);
            run == Prepend(post, WaitForTaskRun(env, log + [post], task, TASK_TIMEOUT)) &&
            run.calls[1] == Wait4Task(task, 60, false) && WaitsOnlyAt(run.calls, 1)
  {
    if Truthy(resource) && blocking && env(log, HttpPost(base, resource)).Returned? {
      var post := HttpPost(base, resource);
      WaitForTaskSpec(env, log + [post], env(log, post).first, TASK_TIMEOUT);
    }
  }

  /**
   * `update` refuses a falsy resource without calling anything and puts the
   * resource to its own `uri` otherwise; it waits (once, 60 seconds) exactly
   * when blocking, as `create` does.
   */
  lemma UpdateSpec(env: Env, log: seq<Call>, resource: Value, blocking: bool)
    ensures !Truthy(resource) ==>
            UpdateRun(env, log, resource, blocking) == Run(Err(ValueError(RESOURCE_WAS_NOT_PROVIDED)), [])
    ensures UpdateTarget(resource).Err? ==>
            UpdateRun(env, log, resource, blocking) == Run(Err(UpdateTarget(resource).error), [])
    ensures UpdateTarget(resource).Ok? ==>
            var put := HttpPut(resource.fields["uri"].s, resource);
            var run := UpdateRun(env, log, resource, blocking);
            |run.calls| >= 1 && run.calls[0] == put &&
            (!blocking ==> run == Run(FirstOf(env(log, put)), [put]) && NoWait(run.calls)) &&
            (blocking && env(log, put).Returned? ==>
               run == Prepend(put, WaitForTaskRun(env, log + [put], env(log, put).first, TASK_TIMEOUT)) &&
               run.calls[1] == Wait4Task(env(log, put).first, 60, false) && WaitsOnlyAt(run.calls, 1))
  {
    UpdateTargetSpec(resource);
    if UpdateTarget(resource).Ok? {
      var put := HttpPut(resource.fields["uri"].s, resource);
      if blocking && env(log, put).Returned? {
        WaitForTaskSpec(env, log + [put], env(log, put).first, TASK_TIMEOUT);
      }
    }
  }

  /**
   * `delete` issues nothing when its target cannot be resolved, and otherwise
   * one DELETE of the target; without blocking it returns that call's task,
   * with blocking it waits once, with the caller's time-out and verbosity,
   * and returns the waited task itself.
   */
  lemma DeleteSpec(base: string, env: Env, log: seq<Call>, resource: Value, force: bool,
                   blocking: bool, verbose: bool, timeout: int)
    ensures DeleteTarget(base, resource, force).Err? ==>
            DeleteRun(base, env, log, resource, force, blocking, verbose, timeout) ==
            Run(Err(DeleteTarget(base, resource, force).error), [])
    ensures DeleteTarget(base, resource, force).Ok? ==>
            var del := HttpDelete(DeleteTarget(base, resource, force).value);
            var run := DeleteRun(base, env, log, resource, force, blocking, verbose, timeout);
            |run.calls| >= 1 && run.calls[0] == del &&
            (!blocking || env(log, del).Raised? ==> run == Run(FirstOf(env(log, del)), [del]) && NoWait(run.calls)) &&
            (blocking && env(log, del).Returned? ==>
               var wait := Wait4Task(env(log, del).first, timeout, verbose);
               run == Run(FirstOf(env(log + [del], wait)), [del, wait]) && WaitsOnlyAt(run.calls, 1))
  {
  }

  /** `basic_update` puts once, never waits, and returns the body of the reply rather than its task. */
  lemma BasicUpdateSpec(env: Env, log: seq<Call>, resource: Value, uri: string)
    ensures var run := BasicUpdateRun(env, log, resource, uri);
            run.calls == [HttpPut(uri, resource)] && NoWait(run.calls) &&
            run.result == match env(log, HttpPut(uri, resource))
                          case Raised(e) => Err(e)
                          case Returned(_, body) => Ok(body)
  {
  }
}
