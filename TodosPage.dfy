/** The checklist list page: loading the checklists with their progress,
    creating one, deleting one, and the progress shown per card. */
module TodosPage {
  import opened Common
  import opened JsString
  import opened Types

  /** `items.filter(item => item.completed).length`. */
  function CompletedCount(items: seq<ChecklistItem>): (r: nat)
    ensures r <= |items|
    ensures r == |items| <==> forall k :: 0 <= k < |items| ==> items[k].completed
    ensures r == 0 <==> forall k :: 0 <= k < |items| ==> !items[k].completed
  {
    if items == [] then 0
    else
      var rest := CompletedCount(items[1..]);
      assert forall k :: 1 <= k < |items| ==> items[k] == items[1..][k - 1];
      (if items[0].completed then 1 else 0) + rest
  }

  /** Counting distributes over concatenation. */
  lemma {:induction false} CompletedCountConcat(a: seq<ChecklistItem>, b: seq<ChecklistItem>)
    ensures CompletedCount(a + b) == CompletedCount(a) + CompletedCount(b)
  {
    if a == [] {
      assert a + b == b;
    } else {
      assert (a + b)[0] == a[0] && (a + b)[1..] == a[1..] + b;
      CompletedCountConcat(a[1..], b);
    }
  }

  /** The positions among the first `n` that hold a completed item. */
  function CompletedPositions(items: seq<ChecklistItem>, n: nat): set<int>
    requires n <= |items|
  {
    set k | 0 <= k < n && items[k].completed
  }

  /** The count is the number of positions holding a completed item: the
      recursion agrees with this independent definition on every prefix. */
  lemma {:induction false} CompletedCountIsPositionCount(items: seq<ChecklistItem>, n: nat)
    requires n <= |items|
    ensures CompletedCount(items[..n]) == |CompletedPositions(items, n)|
  {
    if n == 0 {
      assert CompletedPositions(items, 0) == {};
      assert items[..0] == [];
    } else {
      CompletedCountIsPositionCount(items, n - 1);
      CountStep(items, n);
      PositionsStep(items, n);
    }
  }

  /** Extending a prefix by one item adds one to the count when that item
      is completed. */
  lemma CountStep(items: seq<ChecklistItem>, n: nat)
    requires 0 < n <= |items|
    ensures CompletedCount(items[..n]) == CompletedCount(items[..n - 1]) + (if items[n - 1].completed then 1 else 0)
  {
    var x := items[n - 1];
    assert items[..n] == items[..n - 1] + [x];
    CompletedCountConcat(items[..n - 1], [x]);
    assert [x][1..] == [];
  }

  /** The same step for the positions. */
  lemma PositionsStep(items: seq<ChecklistItem>, n: nat)
    requires 0 < n <= |items|
    ensures |CompletedPositions(items, n)| == |CompletedPositions(items, n - 1)| + (if items[n - 1].completed then 1 else 0)
  {
    if items[n - 1].completed {
      assert CompletedPositions(items, n) == CompletedPositions(items, n - 1) + {n - 1};
    } else {
      assert CompletedPositions(items, n) == CompletedPositions(items, n - 1);
    }
  }

  /** The progress recorded for one checklist from the answer to its item
      fetch: counts on success, 0 of 0 on failure. */
  function ProgressOf(reply: Fetch<seq<ChecklistItem>>): (r: Progress)
    ensures r.completed <= r.total
    ensures reply.Ok? ==> r.total == |reply.value|
    ensures reply.Ok? ==> r.completed == CompletedCount(reply.value)
    ensures reply.Failed? ==> r == Progress(0, 0)
  {
    match reply
    case Ok(items) => Progress(CompletedCount(items), |items|)
    case Failed(_) => Progress(0, 0)
  }

  /** The ids of a list of checklists. */
  function Ids(todos: seq<Checklist>): set<int>
  {
    set k | 0 <= k < |todos| :: todos[k].id
  }

  /** `k` is the last position holding its id: its entry is the one that
      survives in the progress map. */
  predicate LastWithId(todos: seq<Checklist>, k: int)
    requires 0 <= k < |todos|
  {
    forall m :: k < m < |todos| ==> todos[m].id != todos[k].id
  }

  /** The progress map built from checklists `todos` and the answers
      `replies` to their item fetches, one per checklist in order; an id
      that occurs twice keeps the later answer. */
  function ProgressMap(todos: seq<Checklist>, replies: seq<Fetch<seq<ChecklistItem>>>): (r: map<int, Progress>)
    requires |todos| == |replies|
    ensures r.Keys == Ids(todos)
    ensures forall id :: id in r ==> r[id].completed <= r[id].total
  {
    if todos == [] then map[]
    else
      var n := |todos| - 1;
      var prev := ProgressMap(todos[..n], replies[..n]);
      assert Ids(todos) == Ids(todos[..n]) + {todos[n].id} by {
        forall id | id in Ids(todos) ensures id in Ids(todos[..n]) + {todos[n].id} {
          var k :| 0 <= k < |todos| && todos[k].id == id;
          if k < n { assert todos[..n][k] == todos[k]; }
        }
        forall id | id in Ids(todos[..n]) ensures id in Ids(todos) {
          var k :| 0 <= k < n && todos[..n][k].id == id;
        }
      }
      prev[todos[n].id := ProgressOf(replies[n])]
  }

  /** Each checklist's entry is computed from its own answer: the entry
      under the id at its last position is that position's progress. */
  lemma {:induction false} ProgressMapEntry(todos: seq<Checklist>, replies: seq<Fetch<seq<ChecklistItem>>>, k: int)
    requires |todos| == |replies| && 0 <= k < |todos| && LastWithId(todos, k)
    ensures ProgressMap(todos, replies)[todos[k].id] == ProgressOf(replies[k])
  {
    var n := |todos| - 1;
    assert ProgressMap(todos, replies)
      == ProgressMap(todos[..n], replies[..n])[todos[n].id := ProgressOf(replies[n])];
    if k < n {
      assert todos[n].id != todos[k].id;
      assert LastWithId(todos[..n], k) by {
        forall m | k < m < n ensures todos[..n][m].id != todos[..n][k].id {
          assert todos[m].id != todos[k].id;
        }
      }
      ProgressMapEntry(todos[..n], replies[..n], k);
      assert todos[..n][k] == todos[k] && replies[..n][k] == replies[k];
    }
  }

  /** A failed item fetch for one checklist leaves it at 0 of 0 and changes
      no other checklist's entry. */
  lemma {:induction false} FailureIsLocal(todos: seq<Checklist>, replies: seq<Fetch<seq<ChecklistItem>>>, k: int, message: string)
    requires |todos| == |replies| && 0 <= k < |todos|
    ensures var failed := ProgressMap(todos, replies[k := Failed(message)]);
      && (LastWithId(todos, k) ==> failed[todos[k].id] == Progress(0, 0))
      && forall id :: id in failed && id != todos[k].id ==> failed[id] == ProgressMap(todos, replies)[id]
  {
    var replies' := replies[k := Failed(message)];
    if LastWithId(todos, k) {
      ProgressMapEntry(todos, replies', k);
    }
    var n := |todos| - 1;
    if k < n {
      FailureIsLocal(todos[..n], replies[..n], k, message);
      assert replies'[..n] == replies[..n][k := Failed(message)];
      assert replies'[n] == replies[n];
    } else {
      assert replies'[..n] == replies[..n];
    }
  }

  /** The progress a card shows: `todoProgress[todo.id] || {0, 0}`. */
  function DisplayedProgress(progress: map<int, Progress>, id: int): (r: Progress)
    ensures id in progress ==> r == progress[id]
    ensures id !in progress ==> r == Progress(0, 0)
  {
    if id in progress then progress[id] else Progress(0, 0)
  }

  /** Every card of a loaded page shows at most as many completed items as
      it has. */
  lemma DisplayedProgressBounded(todos: seq<Checklist>, replies: seq<Fetch<seq<ChecklistItem>>>, id: int)
    requires |todos| == |replies|
    ensures var p := DisplayedProgress(ProgressMap(todos, replies), id); p.completed <= p.total
  {
  }

  /** `prev.filter(todo => todo.id !== id)`. */
  function WithoutId(todos: seq<Checklist>, id: int): (r: seq<Checklist>)
    ensures |r| <= |todos|
    ensures forall c :: c in r <==> c in todos && c.id != id
    ensures (forall k :: 0 <= k < |todos| ==> todos[k].id != id) ==> r == todos
  {
    if todos == [] then []
    else
      var rest := WithoutId(todos[1..], id);
      assert todos == [todos[0]] + todos[1..];
      if todos[0].id == id then rest else [todos[0]] + rest
  }

  /** Deleting distributes over concatenation, so the checklists that stay
      keep their relative order. */
  lemma {:induction false} WithoutIdConcat(a: seq<Checklist>, b: seq<Checklist>, id: int)
    ensures WithoutId(a + b, id) == WithoutId(a, id) + WithoutId(b, id)
  {
    if a == [] {
      assert a + b == b;
    } else {
      var ab := a + b;
      assert ab[0] == a[0] && ab[1..] == a[1..] + b;
      WithoutIdConcat(a[1..], b, id);
      if a[0].id != id {
        calc {
          WithoutId(ab, id);
          [a[0]] + WithoutId(a[1..] + b, id);
          [a[0]] + (WithoutId(a[1..], id) + WithoutId(b, id));
          ([a[0]] + WithoutId(a[1..], id)) + WithoutId(b, id);
        }
      }
    }
  }

  /** Deleting the same id twice is deleting it once. */
  lemma {:induction false} WithoutIdIdempotent(todos: seq<Checklist>, id: int)
    ensures WithoutId(WithoutId(todos, id), id) == WithoutId(todos, id)
  {
    var r := WithoutId(todos, id);
    forall k | 0 <= k < |r| ensures r[k].id != id {
      assert r[k] in r;
    }
  }

  /** Deleting a just-created checklist whose id was new gives back the
      list as it was before the create. */
  lemma CreateThenDelete(todos: seq<Checklist>, c: Checklist)
    requires c.id !in Ids(todos)
    ensures WithoutId(todos + [c], c.id) == todos
  {
    WithoutIdConcat(todos, [c], c.id);
    assert WithoutId([c], c.id) == WithoutId([], c.id);
    forall k | 0 <= k < |todos| ensures todos[k].id != c.id {
      assert todos[k].id in Ids(todos);
    }
  }

  /** The name a create request carries: the input trimmed, or `None` when
      nothing but whitespace was typed and no request is made. */
  function NameToCreate(input: string): (r: Option<string>)
    ensures r.None? <==> AllWhitespace(input)
    ensures r.Some? ==> r.value == Trim(input) && r.value != ""
  {
    var name := Trim(input);
    if name == "" then None else Some(name)
  }

  /** The page's state. */
  class TodosPage {
    var todos: seq<Checklist>
    var progress: map<int, Progress>
    var loading: bool
    var isCreateDialogOpen: bool
    var newTodoName: string
    var isCreating: bool

    constructor ()
      ensures todos == [] && progress == map[] && loading
      ensures !isCreateDialogOpen && newTodoName == "" && !isCreating
    {
      todos, progress, loading := [], map[], true;
      isCreateDialogOpen, newTodoName, isCreating := false, "", false;
    }

    /** `fetchTodos`. `listing` is the answer to `getAllChecklists`, and
      `replies[k]` the answer to the item fetch of its `k`-th checklist. The
      concurrent fan-out is run one checklist after another. */
    method FetchTodos(token: Option<string>, listing: Fetch<seq<Checklist>>, replies: seq<Fetch<seq<ChecklistItem>>>)
      requires listing.Ok? ==> |replies| == |listing.value|
      modifies this
      ensures !Truthy(token) ==> unchanged(this)
      ensures Truthy(token) ==>
        && !loading
        && isCreateDialogOpen == old(isCreateDialogOpen) && newTodoName == old(newTodoName)
        && isCreating == old(isCreating)
      ensures Truthy(token) && listing.Ok? ==>
        todos == listing.value && progress == ProgressMap(listing.value, replies)
      ensures Truthy(token) && listing.Failed? ==>
        todos == old(todos) && progress == old(progress)
    {
      if !Truthy(token) {
        return;
      }
      loading := true;
      if listing.Ok? {
        var data := listing.value;
        todos := data;
        var progressData: map<int, Progress> := map[];
        var i := 0;
        while i < |data|
          invariant 0 <= i <= |data|
          invariant progressData == ProgressMap(data[..i], replies[..i])
        {
          progressData := progressData[data[i].id := ProgressOf(replies[i])];
          i := i + 1;
          assert data[..i][..i - 1] == data[..i - 1] && replies[..i][..i - 1] == replies[..i - 1];
        }
        assert data[..i] == data && replies[..i] == replies;
        progress := progressData;
      }
      loading := false;
    }

    /** `handleCreateTodo`, with `reply` standing for the answer to
      `createChecklist`. `sent` is the name sent, or `None` when no call was
      made. */
    method HandleCreateTodo(token: Option<string>, reply: Fetch<Checklist>) returns (sent: Option<string>)
      modifies this
      ensures sent == if Truthy(token) then NameToCreate(old(newTodoName)) else None
      ensures isCreating == (old(isCreating) && sent.None?)
      ensures progress == old(progress) && loading == old(loading)
      ensures todos == if sent.Some? && reply.Ok? then old(todos) + [reply.value] else old(todos)
      ensures newTodoName == if sent.Some? && reply.Ok? then "" else old(newTodoName)
      ensures isCreateDialogOpen == (old(isCreateDialogOpen) && !(sent.Some? && reply.Ok?))
    {
      sent := if Truthy(token) then NameToCreate(newTodoName) else None;
      if sent.Some? {
        Create(reply);
      }
    }

    /** The `try`/`finally` of `handleCreateTodo` once a name is to be sent:
      the new checklist is appended and the dialog reset on success, and
      `isCreating` is back to false either way. */
    method Create(reply: Fetch<Checklist>)
      modifies this
      ensures !isCreating && progress == old(progress) && loading == old(loading)
      ensures todos == if reply.Ok? then old(todos) + [reply.value] else old(todos)
      ensures newTodoName == if reply.Ok? then "" else old(newTodoName)
      ensures isCreateDialogOpen == (old(isCreateDialogOpen) && reply.Failed?)
    {
      isCreating := true;
      if reply.Ok? {
        todos := todos + [reply.value];
        newTodoName := "";
        isCreateDialogOpen := false;
      }
      isCreating := false;
    }

    /** `handleDeleteTodo`, with `reply` standing for the answer to
      `deleteChecklist`. `requested` tells whether the call was made. */
    method HandleDeleteTodo(token: Option<string>, id: int, reply: Fetch<()>) returns (requested: bool)
      modifies this
      ensures requested == Truthy(token)
      ensures todos == if requested && reply.Ok? then WithoutId(old(todos), id) else old(todos)
      ensures progress == old(progress) && loading == old(loading)
      ensures isCreateDialogOpen == old(isCreateDialogOpen) && newTodoName == old(newTodoName)
      ensures isCreating == old(isCreating)
    {
      if !Truthy(token) {
        return false;
      }
      requested := true;
      if reply.Ok? {
        todos := WithoutId(todos, id);
      }
    }
  }
}
