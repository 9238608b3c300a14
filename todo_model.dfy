/** The Eloquent `Todo` model of the ToDo app (ToDo/app/Models/Todo.php): the record, its
    mass-assignable attributes and its query scopes. A query over the table is a sequence of
    records; each `where` scope keeps, in order, the records its condition holds for. */
module TodoModel {
  import opened Wrappers

  /** One row; `dueDate` and the clock are instants on one time line. */
  datatype Todo = Todo(
    id: int,
    userId: int,
    title: string,
    description: Option<string>,
    completed: bool,
    dueDate: Option<int>,
    priority: string)

  /** An attribute value handed to mass assignment, after the model's casts. */
  datatype Attr = AInt(n: int) | AText(s: string) | ANull | ABool(b: bool) | ADate(instant: int)

  /** The priorities a todo takes: the values `store` and `update` admit (`in:low,medium,high`)
      and the ones the Phase 7 `byPriority` ordering ranks. */
  const Priorities: set<string> := {"low", "medium", "high"}

  /** `$fillable`. */
  const Fillable: set<string> := {"user_id", "title", "description", "completed", "due_date", "priority"}

  /** The kind of value each column holds: what `fill` can store in this typed record. */
  predicate WellKinded(attrs: map<string, Attr>) {
    && ("user_id" in attrs ==> attrs["user_id"].AInt?)
    && ("title" in attrs ==> attrs["title"].AText?)
    && ("description" in attrs ==> attrs["description"].AText? || attrs["description"].ANull?)
    && ("completed" in attrs ==> attrs["completed"].ABool?)
    && ("due_date" in attrs ==> attrs["due_date"].ADate? || attrs["due_date"].ANull?)
    && ("priority" in attrs ==> attrs["priority"].AText?)
  }

  /** `fill($attributes)` restricted to `fillable`: each fillable key present is written to
      its column, every other key is silently discarded. A value of the wrong kind for its
      column (see `WellKinded`) cannot be stored in the record and leaves the column as it is. */
  function Fill(t: Todo, attrs: map<string, Attr>, fillable: set<string>): (r: Todo)
    ensures r.id == t.id
    ensures "user_id" in fillable && "user_id" in attrs && attrs["user_id"].AInt? ==> r.userId == attrs["user_id"].n
    ensures "user_id" !in fillable || "user_id" !in attrs || !attrs["user_id"].AInt? ==> r.userId == t.userId
    ensures "title" in fillable && "title" in attrs && attrs["title"].AText? ==> r.title == attrs["title"].s
    ensures "title" !in fillable || "title" !in attrs || !attrs["title"].AText? ==> r.title == t.title
    ensures "description" in fillable && "description" in attrs ==>
      (attrs["description"].AText? ==> r.description == Some(attrs["description"].s))
      && (attrs["description"].ANull? ==> r.description == None)
    ensures "description" !in fillable || "description" !in attrs ==> r.description == t.description
    ensures "completed" in fillable && "completed" in attrs && attrs["completed"].ABool? ==> r.completed == attrs["completed"].b
    ensures "completed" !in fillable || "completed" !in attrs || !attrs["completed"].ABool? ==> r.completed == t.completed
    ensures "due_date" in fillable && "due_date" in attrs ==>
      (attrs["due_date"].ADate? ==> r.dueDate == Some(attrs["due_date"].instant))
      && (attrs["due_date"].ANull? ==> r.dueDate == None)
    ensures "due_date" !in fillable || "due_date" !in attrs ==> r.dueDate == t.dueDate
    ensures "priority" in fillable && "priority" in attrs && attrs["priority"].AText? ==> r.priority == attrs["priority"].s
    ensures "priority" !in fillable || "priority" !in attrs || !attrs["priority"].AText? ==> r.priority == t.priority
  {
    t.(
      userId := IntValue(Given(attrs, fillable, "user_id"), t.userId),
      title := TextValue(Given(attrs, fillable, "title"), t.title),
      description := NullableText(Given(attrs, fillable, "description"), t.description),
      completed := BoolValue(Given(attrs, fillable, "completed"), t.completed),
      dueDate := NullableDate(Given(attrs, fillable, "due_date"), t.dueDate),
      priority := TextValue(Given(attrs, fillable, "priority"), t.priority))
  }

  // The column a given attribute lands in; a value of another kind leaves the column as it is
  // (this cannot arise for `WellKinded` attributes).

  function IntValue(v: Option<Attr>, current: int): (r: int)
    ensures v.Some? && v.value.AInt? ==> r == v.value.n
    ensures !(v.Some? && v.value.AInt?) ==> r == current
  {
    if v.Some? && v.value.AInt? then v.value.n else current
  }

  function TextValue(v: Option<Attr>, current: string): (r: string)
    ensures v.Some? && v.value.AText? ==> r == v.value.s
    ensures !(v.Some? && v.value.AText?) ==> r == current
  {
    if v.Some? && v.value.AText? then v.value.s else current
  }

  function BoolValue(v: Option<Attr>, current: bool): (r: bool)
    ensures v.Some? && v.value.ABool? ==> r == v.value.b
    ensures !(v.Some? && v.value.ABool?) ==> r == current
  {
    if v.Some? && v.value.ABool? then v.value.b else current
  }

  function NullableText(v: Option<Attr>, current: Option<string>): (r: Option<string>)
    ensures v.Some? && v.value.AText? ==> r == Some(v.value.s)
    ensures v.Some? && v.value.ANull? ==> r == None
    ensures !(v.Some? && (v.value.AText? || v.value.ANull?)) ==> r == current
  {
    if v.Some? && v.value.AText? then Some(v.value.s)
    else if v.Some? && v.value.ANull? then None
    else current
  }

  function NullableDate(v: Option<Attr>, current: Option<int>): (r: Option<int>)
    ensures v.Some? && v.value.ADate? ==> r == Some(v.value.instant)
    ensures v.Some? && v.value.ANull? ==> r == None
    ensures !(v.Some? && (v.value.ADate? || v.value.ANull?)) ==> r == current
  {
    if v.Some? && v.value.ADate? then Some(v.value.instant)
    else if v.Some? && v.value.ANull? then None
    else current
  }

  /** The value mass assignment takes for `key`, if it takes one. */
  function Given(attrs: map<string, Attr>, fillable: set<string>, key: string): (v: Option<Attr>)
    ensures v.Some? <==> key in fillable && key in attrs
    ensures v.Some? ==> v.value == attrs[key]
  {
    if key in fillable && key in attrs then Some(attrs[key]) else None
  }

  /** With this model's `$fillable`, mass assignment can set the owner. */
  lemma FillSetsOwner(t: Todo, attrs: map<string, Attr>, owner: int)
    requires "user_id" in attrs && attrs["user_id"] == AInt(owner)
    ensures Fill(t, attrs, Fillable).userId == owner
  {
  }

  /** `where` over a query: the records satisfying `keep`, in their original order. */
  function Where(todos: seq<Todo>, keep: Todo -> bool): (r: seq<Todo>)
    ensures |r| <= |todos|
    ensures forall t :: t in r <==> t in todos && keep(t)
    ensures multiset(r) <= multiset(todos)
  {
    if todos == [] then []
    else
      assert todos == [todos[0]] + todos[1..];
      (if keep(todos[0]) then [todos[0]] else []) + Where(todos[1..], keep)
  }

  /** Two conditions applied one after the other are their conjunction. */
  lemma {:induction false} WhereWhere(todos: seq<Todo>, p: Todo -> bool, q: Todo -> bool)
    ensures Where(Where(todos, p), q) == Where(todos, (t: Todo) => p(t) && q(t))
  {
    if todos != [] {
      var x, rest := todos[0], todos[1..];
      WhereWhere(rest, p, q);
      var pq := (t: Todo) => p(t) && q(t);
      assert Where(todos, pq) == (if pq(x) then [x] else []) + Where(rest, pq);
      var w := Where(todos, p);
      if p(x) {
        assert w == [x] + Where(rest, p);
        assert w[0] == x && w[1..] == Where(rest, p);
        assert Where(w, q) == (if q(x) then [x] else []) + Where(Where(rest, p), q);
      } else {
        assert w == Where(rest, p);
      }
    }
  }

  /** Conditions that agree on every record select the same records. */
  lemma {:induction false} WhereSameCondition(todos: seq<Todo>, p: Todo -> bool, q: Todo -> bool)
    requires forall t :: p(t) == q(t)
    ensures Where(todos, p) == Where(todos, q)
  {
    if todos != [] {
      WhereSameCondition(todos[1..], p, q);
    }
  }

  /** `scopeForUser`. */
  function ForUser(todos: seq<Todo>, userId: int): (r: seq<Todo>)
    ensures forall t :: t in r <==> t in todos && t.userId == userId
  {
    Where(todos, (t: Todo) => t.userId == userId)
  }

  predicate IsCompleted(t: Todo) {
    t.completed
  }

  predicate IsIncomplete(t: Todo) {
    !t.completed
  }

  /** `scopeCompleted`. */
  function Completed(todos: seq<Todo>): (r: seq<Todo>)
    ensures forall t :: t in r <==> t in todos && t.completed
  {
    Where(todos, IsCompleted)
  }

  /** `scopeIncomplete`. */
  function Incomplete(todos: seq<Todo>): (r: seq<Todo>)
    ensures forall t :: t in r <==> t in todos && !t.completed
  {
    Where(todos, IsIncomplete)
  }

  /** `scopeByPriority($priority)`: a filter on the priority column. */
  function ByPriority(todos: seq<Todo>, priority: string): (r: seq<Todo>)
    ensures forall t :: t in r <==> t in todos && t.priority == priority
  {
    Where(todos, (t: Todo) => t.priority == priority)
  }

  predicate IsOverdue(t: Todo, now: int) {
    t.dueDate.Some? && t.dueDate.value < now && !t.completed
  }

  /** `scopeOverdue`: a due date strictly before `now` (a null date never compares) and not
      completed. */
  function Overdue(todos: seq<Todo>, now: int): (r: seq<Todo>)
    ensures forall t :: t in r <==> t in todos && IsOverdue(t, now)
  {
    Where(Where(todos, DueBefore(now)), IsIncomplete)
  }

  /** `where('due_date', '<', $now)`. */
  function DueBefore(now: int): Todo -> bool {
    (t: Todo) => t.dueDate.Some? && t.dueDate.value < now
  }

  /** `completed` and `incomplete` split every query into two parts that together hold
      every record exactly as often as the query does. */
  lemma CompletedIncompletePartition(todos: seq<Todo>)
    ensures multiset(Completed(todos)) + multiset(Incomplete(todos)) == multiset(todos)
    ensures |Completed(todos)| + |Incomplete(todos)| == |todos|
    ensures forall t :: !(t in Completed(todos) && t in Incomplete(todos))
  {
    CompletedIncompleteMultiset(todos);
    assert |multiset(Completed(todos)) + multiset(Incomplete(todos))| == |multiset(todos)|;
  }

  lemma CompletedIncompleteMultiset(todos: seq<Todo>)
    ensures multiset(Completed(todos)) + multiset(Incomplete(todos)) == multiset(todos)
  {
    WhereSplit(todos, IsCompleted, IsIncomplete);
  }

  /** A condition and its negation split any query. */
  lemma {:induction false} WhereSplit(todos: seq<Todo>, p: Todo -> bool, q: Todo -> bool)
    requires forall t :: q(t) == !p(t)
    ensures multiset(Where(todos, p)) + multiset(Where(todos, q)) == multiset(todos)
  {
    if todos != [] {
      var x, rest := todos[0], todos[1..];
      WhereSplit(rest, p, q);
      WhereStep(todos, p);
      WhereStep(todos, q);
      SplitStep(todos, Where(rest, p), Where(rest, q), Where(todos, p), Where(todos, q));
    }
  }

  /** The multiset arithmetic of one step of `WhereSplit`. */
  lemma SplitStep(todos: seq<Todo>, a: seq<Todo>, b: seq<Todo>, wp: seq<Todo>, wq: seq<Todo>)
    requires todos != [] && multiset(a) + multiset(b) == multiset(todos[1..])
    requires (wp == [todos[0]] + a && wq == b) || (wp == a && wq == [todos[0]] + b)
    ensures multiset(wp) + multiset(wq) == multiset(todos)
  {
    assert todos == [todos[0]] + todos[1..];
  }

  /** One step of `Where`. */
  lemma WhereStep(todos: seq<Todo>, keep: Todo -> bool)
    requires todos != []
    ensures Where(todos, keep) == (if keep(todos[0]) then [todos[0]] else []) + Where(todos[1..], keep)
  {
  }

  /** Overdue records are the incomplete records whose due date has passed. */
  lemma OverdueIsIncompleteAndPast(todos: seq<Todo>, now: int)
    ensures Overdue(todos, now) == Where(Incomplete(todos), DueBefore(now))
    ensures forall t :: t in Overdue(todos, now) ==> t in Incomplete(todos)
  {
    var past := DueBefore(now);
    var open := IsIncomplete;
    WhereWhere(todos, past, open);
    WhereWhere(todos, open, past);
    WhereSameCondition(todos, (t: Todo) => past(t) && open(t), (t: Todo) => open(t) && past(t));
  }
}
