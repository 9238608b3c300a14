/** The resource controller of the ToDo app (ToDo/app/Http/Controllers/TodoController.php) over
    an in-memory table of todos: the listing filters, the validation rules of `store` and
    `update`, and the owner guard in front of `update`, `toggle` and `destroy`. Every action
    runs for an authenticated user (the `auth` middleware). */
module TodoController {
  import opened Wrappers
  import opened TodoModel

  /** PHP `trim`'s default characters. */
  predicate IsTrimmed(c: char) {
    c == ' ' || c == '\t' || c == '\n' || c == '\r' || c == '\0' || c == '\U{000B}'
  }

  predicate IsBlank(s: string) {
    forall i :: 0 <= i < |s| ==> IsTrimmed(s[i])
  }

  datatype RawField = Missing | Null | Text(s: string)

  /** A request field as the validator sees it: strings arrive trimmed and an empty string
      arrives as null, so a present string is never blank. */
  type Field = f: RawField | !(f.Text? && IsBlank(f.s)) witness Missing

  /** `$request->filled($key)`. */
  predicate Filled(f: Field) {
    f.Text?
  }

  /** The form fields of `store` and `update`. */
  datatype TodoInput = TodoInput(
    title: Field,
    description: Field,
    priority: Field,
    dueDate: Field,
    completed: Field)

  /** The date parser behind the `date` rule and the `date` cast (None: not a date). */
  type DateParser = string -> Option<int>

  // ---------------------------------------------------------------- validation

  /** `store`'s rules; on success the validated attributes, holding only the fields present. */
  function ValidateStore(input: TodoInput, parseDate: DateParser, today: int): (r: Option<map<string, Attr>>)
    ensures r.Some? <==>
      && input.title.Text? && |input.title.s| <= 255
      && input.priority.Text? && input.priority.s in Priorities
      && (input.dueDate.Text? ==> parseDate(input.dueDate.s).Some? && parseDate(input.dueDate.s).value >= today)
    ensures r.Some? ==> "title" in r.value && r.value["title"] == AText(input.title.s)
    ensures r.Some? ==> "priority" in r.value && r.value["priority"] == AText(input.priority.s)
    ensures r.Some? ==> r.value.Keys <= {"title", "description", "priority", "due_date"}
    ensures r.Some? ==> ("description" in r.value <==> !input.description.Missing?)
    ensures r.Some? && input.description.Text? ==> r.value["description"] == AText(input.description.s)
    ensures r.Some? && input.description.Null? ==> r.value["description"] == ANull
    ensures r.Some? ==> ("due_date" in r.value <==> !input.dueDate.Missing?)
    ensures r.Some? && input.dueDate.Text? ==> r.value["due_date"] == ADate(parseDate(input.dueDate.s).value)
    ensures r.Some? && input.dueDate.Null? ==> r.value["due_date"] == ANull
    ensures r.Some? ==> WellKinded(r.value)
  {
    var titleOk := input.title.Text? && |input.title.s| <= 255;
    var priorityOk := input.priority.Text? && input.priority.s in Priorities;
    var dueOk := input.dueDate.Text? ==> parseDate(input.dueDate.s).Some? && parseDate(input.dueDate.s).value >= today;
    if titleOk && priorityOk && dueOk then
      var fields := map["title" := AText(input.title.s), "priority" := AText(input.priority.s)];
      Some(SetDate(SetText(fields, "description", input.description), "due_date", input.dueDate, parseDate))
    else
      None
  }

  /** Adds a nullable string field: null when sent as null, nothing when not sent. */
  function SetText(m: map<string, Attr>, key: string, f: Field): (r: map<string, Attr>)
    ensures f.Missing? ==> r == m
    ensures f.Null? ==> r == m[key := ANull]
    ensures f.Text? ==> r == m[key := AText(f.s)]
  {
    match f
    case Missing => m
    case Null => m[key := ANull]
    case Text(s) => m[key := AText(s)]
  }

  /** Adds a nullable date field, cast by the model's `date` cast. */
  function SetDate(m: map<string, Attr>, key: string, f: Field, parseDate: DateParser): (r: map<string, Attr>)
    ensures r.Keys <= m.Keys + {key}
    ensures forall k :: k in m && k != key ==> k in r && r[k] == m[k]
    ensures key in r && key !in m ==> r[key].ADate? || r[key].ANull?
    ensures f.Null? ==> r == m[key := ANull]
    ensures f.Text? && parseDate(f.s).Some? ==> r == m[key := ADate(parseDate(f.s).value)]
    ensures f.Missing? || (f.Text? && parseDate(f.s).None?) ==> r == m
  {
    match f
    case Missing => m
    case Null => m[key := ANull]
    case Text(s) => if parseDate(s).Some? then m[key := ADate(parseDate(s).value)] else m
  }

  /** The `boolean` rule: true, false, 0, 1, "0" or "1"; form fields can only send the strings. */
  function BooleanField(f: Field): Option<bool> {
    if f.Text? && f.s == "1" then Some(true)
    else if f.Text? && f.s == "0" then Some(false)
    else None
  }

  /** The text fields of `update`'s validated attributes: each one that was sent. */
  function UpdateTexts(input: TodoInput): (m: map<string, Attr>)
    ensures m.Keys <= {"title", "description", "priority"}
    ensures "description" in m <==> !input.description.Missing?
    ensures input.description.Text? ==> m["description"] == AText(input.description.s)
    ensures input.description.Null? ==> m["description"] == ANull
    ensures "title" in m <==> !input.title.Missing?
    ensures input.title.Text? ==> m["title"] == AText(input.title.s)
    ensures "priority" in m <==> !input.priority.Missing?
    ensures input.priority.Text? ==> m["priority"] == AText(input.priority.s)
  {
    var m := SetText(map[], "title", input.title);
    var m := SetText(m, "priority", input.priority);
    SetText(m, "description", input.description)
  }

  /** The attributes `update` validates, for input that passed its rules: each field that
      was sent. */
  function UpdateData(input: TodoInput, parseDate: DateParser): (m: map<string, Attr>)
    requires input.completed.Missing? || BooleanField(input.completed).Some?
    ensures m.Keys <= {"title", "description", "priority", "due_date", "completed"}
    ensures "title" in m <==> !input.title.Missing?
    ensures input.title.Text? ==> m["title"] == AText(input.title.s)
    ensures "priority" in m <==> !input.priority.Missing?
    ensures input.priority.Text? ==> m["priority"] == AText(input.priority.s)
    ensures "completed" in m <==> !input.completed.Missing?
    ensures "completed" in m ==> m["completed"] == ABool(BooleanField(input.completed).value)
    ensures "description" in m <==> !input.description.Missing?
    ensures input.description.Text? ==> m["description"] == AText(input.description.s)
    ensures input.description.Null? ==> m["description"] == ANull
    ensures "due_date" in m <==> input.dueDate.Null? || (input.dueDate.Text? && parseDate(input.dueDate.s).Some?)
    ensures input.dueDate.Null? ==> m["due_date"] == ANull
    ensures input.dueDate.Text? && parseDate(input.dueDate.s).Some? ==>
      m["due_date"] == ADate(parseDate(input.dueDate.s).value)
  {
    var m := SetDate(UpdateTexts(input), "due_date", input.dueDate, parseDate);
    if input.completed.Missing? then m else m["completed" := ABool(BooleanField(input.completed).value)]
  }

  /** `update`'s rules (`sometimes` fields are checked only when sent); on success the
      validated attributes. */
  function ValidateUpdate(input: TodoInput, parseDate: DateParser): (r: Option<map<string, Attr>>)
    ensures r.Some? <==>
      && (input.title.Missing? || (input.title.Text? && |input.title.s| <= 255))
      && (input.priority.Missing? || (input.priority.Text? && input.priority.s in Priorities))
      && (input.dueDate.Text? ==> parseDate(input.dueDate.s).Some?)
      && (input.completed.Missing? || BooleanField(input.completed).Some?)
    ensures r.Some? ==> r.value.Keys <= {"title", "description", "priority", "due_date", "completed"}
    ensures r.Some? ==> "user_id" !in r.value
    ensures r.Some? ==> ("priority" in r.value <==> input.priority.Text?)
    ensures r.Some? && "priority" in r.value ==> r.value["priority"].AText? && r.value["priority"].s in Priorities
    ensures r.Some? && "title" in r.value ==> r.value["title"].AText? && |r.value["title"].s| <= 255
    ensures r.Some? && "completed" in r.value ==> r.value["completed"].ABool?
    ensures r.Some? ==> WellKinded(r.value)
    ensures r.Some? ==> r.value == UpdateData(input, parseDate)
  {
    var titleOk := input.title.Missing? || (input.title.Text? && |input.title.s| <= 255);
    var priorityOk := input.priority.Missing? || (input.priority.Text? && input.priority.s in Priorities);
    var dueOk := input.dueDate.Text? ==> parseDate(input.dueDate.s).Some?;
    var completedOk := input.completed.Missing? || BooleanField(input.completed).Some?;
    if titleOk && priorityOk && dueOk && completedOk then Some(UpdateData(input, parseDate)) else None
  }

  /** A validated update changes only the fields it names, and never the owner. */
  lemma UpdateTouchesOnlyValidated(t: Todo, input: TodoInput, parseDate: DateParser)
    requires ValidateUpdate(input, parseDate).Some?
    ensures var u := Fill(t, ValidateUpdate(input, parseDate).value, Fillable);
      && u.id == t.id && u.userId == t.userId
      && (input.title.Missing? ==> u.title == t.title)
      && (input.priority.Missing? ==> u.priority == t.priority)
      && (input.completed.Missing? ==> u.completed == t.completed)
      && (input.description.Missing? ==> u.description == t.description)
      && (input.dueDate.Missing? ==> u.dueDate == t.dueDate)
      && u.priority in Priorities + {t.priority}
  {
    var v := ValidateUpdate(input, parseDate).value;
    assert "title" in v ==> input.title.Text?;
    assert "completed" in v ==> !input.completed.Missing?;
  }

  /** A validated update writes each field that was sent, with the sent value: a null
      description or due date clears it, and a due date is stored as the parsed instant. */
  lemma UpdateWritesSentValues(t: Todo, input: TodoInput, parseDate: DateParser)
    requires ValidateUpdate(input, parseDate).Some?
    ensures var u := Fill(t, ValidateUpdate(input, parseDate).value, Fillable);
      && (input.title.Text? ==> u.title == input.title.s)
      && (input.priority.Text? ==> u.priority == input.priority.s)
      && (!input.completed.Missing? ==> u.completed == BooleanField(input.completed).value)
      && (input.description.Text? ==> u.description == Some(input.description.s))
      && (input.description.Null? ==> u.description == None)
      && (input.dueDate.Text? ==> u.dueDate == Some(parseDate(input.dueDate.s).value))
      && (input.dueDate.Null? ==> u.dueDate == None)
  {
    var v := ValidateUpdate(input, parseDate).value;
    assert v == UpdateData(input, parseDate);
  }

  /** The todo `store` creates is exactly the sent fields: the title and priority, the
      description and due date when sent as text (the date parsed), and nothing otherwise. */
  lemma StoreCreatesSentTodo(id: int, user: int, input: TodoInput, parseDate: DateParser, today: int)
    requires ValidateStore(input, parseDate, today).Some?
    ensures Fill(Todo(id, user, "", None, false, None, ""), ValidateStore(input, parseDate, today).value, Fillable).(userId := user)
      == Todo(id, user, input.title.s,
              if input.description.Text? then Some(input.description.s) else None,
              false,
              if input.dueDate.Text? then Some(parseDate(input.dueDate.s).value) else None,
              input.priority.s)
  {
    var v := ValidateStore(input, parseDate, today).value;
    assert "completed" !in v && "user_id" !in v;
  }

  // ---------------------------------------------------------------- outcomes

  /** What PHP can throw here: `abort()` throws an `HttpException` (an `\Exception`);
      a call with too few arguments throws an `ArgumentCountError` (an `\Error`, not an
      `\Exception`). */
  datatype Thrown = ArgumentCountError | HttpException(status: int)

  predicate IsException(e: Thrown) {
    e.HttpException?
  }

  /** What an action answers. */
  datatype Outcome =
    | View(todos: seq<Todo>)
    | BackWithSuccess(message: string)
    | BackWithError(message: string)
    | ValidationFailed
    | NotFound
    | Uncaught(error: Thrown)

  /** `catch (\Exception $e)` around a block that threw `e`. */
  function Caught(e: Thrown, errorMessage: string): (o: Outcome)
    ensures IsException(e) ==> o == BackWithError(errorMessage)
    ensures !IsException(e) ==> o == Uncaught(e)
  {
    if IsException(e) then BackWithError(errorMessage) else Uncaught(e)
  }

  /** The ToDo model's `scopeByPriority($query, string $priority)` called with the given
      arguments after the query: PHP's arity check comes first. */
  function CallByPriorityScope(query: seq<Todo>, args: seq<string>): (r: Result<seq<Todo>, Thrown>)
    ensures args == [] ==> r == Failure(ArgumentCountError)
    ensures args != [] ==> r.Success? && forall t :: t in r.value <==> t in query && t.priority == args[0]
  {
    if args == [] then Failure(ArgumentCountError) else Success(ByPriority(query, args[0]))
  }

  datatype Result<+T, +E> = Success(value: T) | Failure(error: E)

  /** The row with a given id, as route model binding finds it. */
  function Find(rows: seq<Todo>, id: int): (r: Option<nat>)
    ensures r.Some? ==> r.value < |rows| && rows[r.value].id == id
    ensures r.None? ==> forall t :: t in rows ==> t.id != id
  {
    if rows == [] then None
    else if rows[0].id == id then Some(0)
    else
      var rest := Find(rows[1..], id);
      if rest.Some? then Some(rest.value + 1) else None
  }

  predicate UniqueIds(rows: seq<Todo>) {
    forall i, j :: 0 <= i < j < |rows| ==> rows[i].id != rows[j].id
  }

  /** The listing's status filter: only the two exact values select anything. */
  predicate StatusKeeps(status: Field, t: Todo) {
    if Filled(status) && status.s == "completed" then t.completed
    else if Filled(status) && status.s == "incomplete" then !t.completed
    else true
  }

  predicate PriorityKeeps(priority: Field, t: Todo) {
    Filled(priority) ==> t.priority == priority.s
  }

  class Todos {
    /** The table, in insertion order. */
    var rows: seq<Todo>
    var nextId: int

    ghost predicate Valid()
      reads this
    {
      UniqueIds(rows) && forall t :: t in rows ==> t.id < nextId
    }

    constructor ()
      ensures Valid() && rows == [] && nextId == 1
    {
      rows := [];
      nextId := 1;
    }

    /** The query `index` builds before ordering: the user's todos, then the status and
        priority filters when those fields are filled. */
    method FilteredQuery(user: int, status: Field, priority: Field) returns (query: seq<Todo>)
      ensures multiset(query) <= multiset(rows)
      ensures forall t :: t in query <==>
        t in rows && t.userId == user && StatusKeeps(status, t) && PriorityKeeps(priority, t)
    {
      query := ForUser(rows, user);
      if Filled(status) {
        if status.s == "completed" {
          query := Completed(query);
        } else if status.s == "incomplete" {
          query := Incomplete(query);
        }
      }
      if Filled(priority) {
        var p := priority.s;
        query := Where(query, (t: Todo) => t.priority == p);
      }
    }

    /** `index` as written: `byPriority()` is called without the priority the ToDo model's
        scope requires, and the resulting `ArgumentCountError` is not an `\Exception`, so the
        `catch` does not take it and no listing is ever shown. */
    method IndexAsWritten(user: int, status: Field, priority: Field) returns (outcome: Outcome)
      ensures outcome == Uncaught(ArgumentCountError)
    {
      var query := FilteredQuery(user, status, priority);
      var ordered := CallByPriorityScope(query, []);
      match ordered {
        case Success(q) => outcome := View(q);
        case Failure(e) => outcome := Caught(e, "Failed to load todos. Please try again.");
      }
    }

    /** `index` as intended: the filtered listing of the user's own todos. The order that
        `byPriority()->latest()` was meant to impose is not modelled. */
    method Index(user: int, status: Field, priority: Field) returns (outcome: Outcome)
      ensures outcome.View?
      ensures multiset(outcome.todos) <= multiset(rows)
      ensures forall t :: t in outcome.todos ==> t.userId == user
      ensures forall t :: t in outcome.todos <==>
        t in rows && t.userId == user && StatusKeeps(status, t) && PriorityKeeps(priority, t)
    {
      var query := FilteredQuery(user, status, priority);
      outcome := View(query);
    }

    /** `store`: a new todo owned by the current user from the validated fields; `completed`
        starts false. */
    method Store(user: int, input: TodoInput, parseDate: DateParser, today: int) returns (outcome: Outcome)
      requires Valid()
      modifies this
      ensures Valid()
      ensures ValidateStore(input, parseDate, today).None? ==>
        outcome == ValidationFailed && rows == old(rows) && nextId == old(nextId)
      ensures ValidateStore(input, parseDate, today).Some? ==>
        && outcome == BackWithSuccess("Todo created successfully!")
        && nextId == old(nextId) + 1
        && rows == old(rows) + [Fill(
             Todo(old(nextId), user, "", None, false, None, ""),
             ValidateStore(input, parseDate, today).value, Fillable).(userId := user)]
    {
      var validated := ValidateStore(input, parseDate, today);
      if validated.None? {
        return ValidationFailed;
      }
      var created := Fill(Todo(nextId, user, "", None, false, None, ""), validated.value, Fillable).(userId := user);
      rows := rows + [created];
      nextId := nextId + 1;
      outcome := BackWithSuccess("Todo created successfully!");
    }

    /** `update`: for the owner, the validated fields are written; anyone else gets the
        error redirect (the 403 abort is caught) and nothing changes. */
    method Update(user: int, id: int, input: TodoInput, parseDate: DateParser) returns (outcome: Outcome)
      requires Valid()
      modifies this
      ensures Valid() && nextId == old(nextId)
      ensures Find(old(rows), id).None? ==> outcome == NotFound && rows == old(rows)
      ensures Find(old(rows), id).Some? && old(rows)[Find(old(rows), id).value].userId != user ==>
        outcome == BackWithError("Failed to update todo. Please try again.") && rows == old(rows)
      ensures Find(old(rows), id).Some? && old(rows)[Find(old(rows), id).value].userId == user ==>
        var i := Find(old(rows), id).value;
        if ValidateUpdate(input, parseDate).None? then
          outcome == ValidationFailed && rows == old(rows)
        else
          && outcome == BackWithSuccess("Todo updated successfully!")
          && rows == old(rows)[i := Fill(old(rows)[i], ValidateUpdate(input, parseDate).value, Fillable)]
    {
      var found := Find(rows, id);
      if found.None? {
        return NotFound;
      }
      var i := found.value;
      var todo := rows[i];
      if todo.userId != user {
        return Caught(HttpException(403), "Failed to update todo. Please try again.");
      }
      var validated := ValidateUpdate(input, parseDate);
      if validated.None? {
        return ValidationFailed;
      }
      var updated := Fill(todo, validated.value, Fillable);
      UpdateTouchesOnlyValidated(todo, input, parseDate);
      rows := rows[i := updated];
      assert forall t :: t in rows ==> t in old(rows) || t == updated;
      outcome := BackWithSuccess("Todo updated successfully!");
    }

    /** `toggle`: the owner's todo flips `completed` and nothing else. */
    method Toggle(user: int, id: int) returns (outcome: Outcome)
      requires Valid()
      modifies this
      ensures Valid() && nextId == old(nextId)
      ensures Find(old(rows), id).None? ==> outcome == NotFound && rows == old(rows)
      ensures Find(old(rows), id).Some? && old(rows)[Find(old(rows), id).value].userId != user ==>
        outcome == BackWithError("Failed to update status.") && rows == old(rows)
      ensures Find(old(rows), id).Some? && old(rows)[Find(old(rows), id).value].userId == user ==>
        var i := Find(old(rows), id).value;
        && outcome == BackWithSuccess("Todo status updated!")
        && rows == old(rows)[i := old(rows)[i].(completed := !old(rows)[i].completed)]
    {
      var found := Find(rows, id);
      if found.None? {
        return NotFound;
      }
      var i := found.value;
      var todo := rows[i];
      if todo.userId != user {
        return Caught(HttpException(403), "Failed to update status.");
      }
      rows := rows[i := todo.(completed := !todo.completed)];
      assert forall t :: t in rows ==> t in old(rows) || t == todo.(completed := !todo.completed);
      outcome := BackWithSuccess("Todo status updated!");
    }

    /** `destroy`: the owner's todo, and only it, leaves the table. */
    method Destroy(user: int, id: int) returns (outcome: Outcome)
      requires Valid()
      modifies this
      ensures Valid() && nextId == old(nextId)
      ensures Find(old(rows), id).None? ==> outcome == NotFound && rows == old(rows)
      ensures Find(old(rows), id).Some? && old(rows)[Find(old(rows), id).value].userId != user ==>
        outcome == BackWithError("Failed to delete todo.") && rows == old(rows)
      ensures Find(old(rows), id).Some? && old(rows)[Find(old(rows), id).value].userId == user ==>
        && outcome == BackWithSuccess("Todo deleted successfully!")
        && (forall t :: t in rows <==> t in old(rows) && t.id != id)
        && |rows| == |old(rows)| - 1
    {
      var found := Find(rows, id);
      if found.None? {
        return NotFound;
      }
      var i := found.value;
      if rows[i].userId != user {
        return Caught(HttpException(403), "Failed to delete todo.");
      }
      RemoveAt(rows, i);
      rows := rows[..i] + rows[i + 1..];
      outcome := BackWithSuccess("Todo deleted successfully!");
    }
  }

  /** Removing the row at `i` from a table with unique ids removes exactly the rows with
      that row's id. */
  lemma RemoveAt(rows: seq<Todo>, i: nat)
    requires UniqueIds(rows) && i < |rows|
    ensures UniqueIds(rows[..i] + rows[i + 1..])
    ensures forall t :: t in rows[..i] + rows[i + 1..] <==> t in rows && t.id != rows[i].id
  {
    var r := rows[..i] + rows[i + 1..];
    assert forall k :: 0 <= k < |r| ==> r[k] == if k < i then rows[k] else rows[k + 1];
    forall t | t in rows && t.id != rows[i].id
      ensures t in r
    {
      var k :| 0 <= k < |rows| && rows[k] == t;
      assert k != i;
      if k < i { assert r[k] == t; } else { assert r[k - 1] == t; }
    }
  }
}
