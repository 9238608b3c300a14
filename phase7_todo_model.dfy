/** The Phase7 variant of the `Todo` model (Phase7/ToDo/app/Models/Todo.php). Its `forUser`,
    `completed`, `incomplete` and `overdue` scopes are the same `where` conditions as in
    TodoModel; what differs is `$fillable`, which leaves out `user_id`, and `byPriority`, which
    orders by a priority rank instead of filtering. */
module Phase7TodoModel {
  import opened Wrappers
  import opened TodoModel

  /** `$fillable`: no `user_id`. */
  const Fillable: set<string> := {"title", "description", "completed", "due_date", "priority"}

  /** Mass assignment never changes the owner. */
  lemma FillKeepsOwner(t: Todo, attrs: map<string, Attr>)
    ensures Fill(t, attrs, Fillable).userId == t.userId
  {
  }

  /** The value of the `CASE priority WHEN ... END` expression `byPriority` orders by:
      for `'desc'` (the default) high 1, medium 2, low 3; for any other direction low 1,
      medium 2, high 3; None (SQL NULL) for a priority no branch names. */
  function Rank(priority: string, direction: string := "desc"): (r: Option<int>)
    ensures r.Some? <==> priority in Priorities
    ensures r.Some? ==> 1 <= r.value <= 3
    ensures direction == "desc" && priority == "high" ==> r == Some(1)
    ensures direction == "desc" && priority == "medium" ==> r == Some(2)
    ensures direction == "desc" && priority == "low" ==> r == Some(3)
  {
    if direction == "desc" then
      match priority
      case "high" => Some(1)
      case "medium" => Some(2)
      case "low" => Some(3)
      case _ => None
    else
      match priority
      case "low" => Some(1)
      case "medium" => Some(2)
      case "high" => Some(3)
      case _ => None
  }

  /** Any direction other than exactly `'desc'` (even `'DESC'`) ranks in the reverse order. */
  lemma OtherDirectionReversesRank(priority: string, direction: string)
    requires direction != "desc" && priority in Priorities
    ensures Rank(priority, direction).value == 4 - Rank(priority).value
  {
  }

  /** `a` may come before `b` under `ORDER BY rank`: NULL ranks sort first, as in MySQL and
      SQLite. */
  predicate RankLe(a: Todo, b: Todo, direction: string) {
    var ra, rb := Rank(a.priority, direction), Rank(b.priority, direction);
    ra.None? || (rb.Some? && ra.value <= rb.value)
  }

  predicate OrderedByPriority(todos: seq<Todo>, direction: string) {
    forall i, j :: 0 <= i < j < |todos| ==> RankLe(todos[i], todos[j], direction)
  }

  /** What `byPriority($direction)` gives back: the same rows, reordered by rank. The order of
      rows of equal rank is left to the rest of the query. */
  predicate IsByPriority(todos: seq<Todo>, result: seq<Todo>, direction: string) {
    multiset(result) == multiset(todos) && OrderedByPriority(result, direction)
  }

  function Reverse(s: seq<Todo>): (r: seq<Todo>)
    ensures |r| == |s| && forall i :: 0 <= i < |s| ==> r[i] == s[|s| - 1 - i]
    ensures multiset(r) == multiset(s)
  {
    if s == [] then []
    else
      assert s == [s[0]] + s[1..];
      Reverse(s[1..]) + [s[0]]
  }

  /** The two orderings are exact reverses: reversing a result ordered with `'desc'` gives a
      result ordered for any other direction (when every priority is one of the three). */
  lemma ReversedDescIsAsc(todos: seq<Todo>, result: seq<Todo>, direction: string)
    requires direction != "desc"
    requires forall t :: t in todos ==> t.priority in Priorities
    requires IsByPriority(todos, result, "desc")
    ensures IsByPriority(todos, Reverse(result), direction)
  {
    var r := Reverse(result);
    forall i, j | 0 <= i < j < |r|
      ensures RankLe(r[i], r[j], direction)
    {
      var a, b := result[|result| - 1 - i], result[|result| - 1 - j];
      assert a in multiset(todos) && b in multiset(todos);
      assert RankLe(b, a, "desc");
      OtherDirectionReversesRank(a.priority, direction);
      OtherDirectionReversesRank(b.priority, direction);
    }
  }
}
