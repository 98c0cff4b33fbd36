/** The board presenter: a class whose methods change what the board shows,
    one DOM operation at a time. Each method is proved against the function
    of module BoardSpec that says what the event does to the view. */
module BoardPresenter {
  import opened BoardSpec

  class Board {
    /** `_boardTasks`: the presenter's own copy of the list given to `init`. */
    var tasks: seq<Task>
    /** Whether `init` has run. */
    var initialized: bool

    var placeholderShown: bool
    var sortShown: bool
    var rendered: seq<Task>
    var modes: seq<Mode>
    var listening: seq<bool>
    var renderedTaskCount: nat
    var buttonPresent: bool

    /** What this board currently shows. */
    function Shown(): View
      reads this
    {
      View(placeholderShown, sortShown, rendered, modes, listening,
           renderedTaskCount, buttonPresent)
    }

    ghost predicate Valid()
      reads this
    {
      (initialized ==> Inv(tasks, Shown())) &&
      (!initialized ==> Shown() == Blank())
    }

    /** A presenter before `init`: nothing is rendered. */
    constructor ()
      ensures Valid() && !initialized && tasks == []
    {
      tasks := [];
      initialized := false;
      placeholderShown, sortShown := false, false;
      rendered, modes, listening := [], [], [];
      renderedTaskCount, buttonPresent := 0, false;
    }

    /** `init(boardTasks)`: store the list and render the board. */
    method Init(boardTasks: seq<Task>)
      requires Valid() && !initialized
      modifies this
      ensures Valid() && initialized
      ensures tasks == boardTasks
      ensures Shown() == Initial(boardTasks)
    {
      tasks := boardTasks;
      initialized := true;
      RenderBoard();
      InitialRender(tasks);
    }

    /** `_renderBoard`: the placeholder alone when every task is archived,
        otherwise the sort and the task list. */
    method RenderBoard()
      requires Shown() == Blank()
      modifies this
      ensures Shown() == Initial(tasks)
      ensures tasks == old(tasks) && initialized == old(initialized)
    {
      if AllArchived(tasks) {
        RenderNoTasks();
        return;
      }
      RenderSort();
      RenderTaskList();
    }

    /** `_renderNoTasks`. */
    method RenderNoTasks()
      modifies this`placeholderShown
      ensures placeholderShown
    {
      placeholderShown := true;
    }

    /** `_renderSort`. */
    method RenderSort()
      modifies this`sortShown
      ensures sortShown
    {
      sortShown := true;
    }

    /** `_renderTaskList`: the first batch, then the button when tasks
        remain. */
    method RenderTaskList()
      requires !AllArchived(tasks) && Shown() == Blank().(sortShown := true)
      modifies this
      ensures Shown() == Initial(tasks)
      ensures tasks == old(tasks) && initialized == old(initialized)
    {
      RenderTasks(0, Min(|tasks|, TaskCountPerStep));
      if |tasks| > TaskCountPerStep {
        RenderLoadMoreButton();
      }
    }

    /** `_renderTasks(from, to)`: render `tasks.slice(from, to)` in order. */
    method RenderTasks(from: nat, to: nat)
      modifies this
      ensures Shown() == AppendCards(old(Shown()), Slice(tasks, from, to))
      ensures tasks == old(tasks) && initialized == old(initialized)
    {
      RenderBatch(Slice(tasks, from, to));
    }

    /** The `forEach` over a slice shared by `_renderTasks` and the load-more
        handler: `_renderTask` for each task, in order. */
    method RenderBatch(batch: seq<Task>)
      modifies this
      ensures Shown() == AppendCards(old(Shown()), batch)
      ensures tasks == old(tasks) && initialized == old(initialized)
    {
      var i := 0;
      while i < |batch|
        invariant 0 <= i <= |batch|
        invariant Shown() == AppendCards(old(Shown()), batch[..i])
        invariant tasks == old(tasks) && initialized == old(initialized)
      {
        RenderTask(batch[i]);
        assert batch[..i + 1] == batch[..i] + [batch[i]];
        i := i + 1;
      }
      assert batch[..i] == batch;
    }

    /** `_renderTask(task)`: append the task's card; its edit form is kept
        aside and its Escape listener is not registered yet. */
    method RenderTask(task: Task)
      modifies this`rendered, this`modes, this`listening
      ensures rendered == old(rendered) + [task]
      ensures modes == old(modes) + [Card]
      ensures listening == old(listening) + [false]
    {
      rendered := rendered + [task];
      modes := modes + [Card];
      listening := listening + [false];
    }

    /** `_renderLoadMoreButton`: the counter starts at one batch and the
        button is rendered. */
    method RenderLoadMoreButton()
      modifies this`renderedTaskCount, this`buttonPresent
      ensures renderedTaskCount == TaskCountPerStep && buttonPresent
    {
      renderedTaskCount := TaskCountPerStep;
      buttonPresent := true;
    }

    /** The load-more button's click handler. */
    method ClickLoadMore()
      requires Valid() && initialized && buttonPresent
      modifies this
      ensures Valid() && initialized && tasks == old(tasks)
      ensures Shown() == LoadMore(tasks, old(Shown()))
    {
      LoadMoreStep(tasks, Shown());
      RenderBatch(Slice(tasks, renderedTaskCount, renderedTaskCount + TaskCountPerStep));
      renderedTaskCount := renderedTaskCount + TaskCountPerStep;
      if renderedTaskCount >= |tasks| {
        buttonPresent := false;
      }
    }

    /** The edit-click handler of the card of rendered task `i`. */
    method ClickEdit(i: nat)
      requires Valid() && initialized && i < |rendered| && modes[i] == Card
      modifies this`modes, this`listening
      ensures Valid()
      ensures Shown() == EditClick(old(Shown()), i)
    {
      EditClickStep(tasks, Shown(), i);
      modes := modes[i := Form];
      listening := listening[i := true];
    }

    /** The form-submit handler of the form of rendered task `i`. */
    method SubmitForm(i: nat)
      requires Valid() && initialized && i < |rendered| && modes[i] == Form
      modifies this`modes, this`listening
      ensures Valid()
      ensures Shown() == FormSubmit(old(Shown()), i)
    {
      FormSubmitStep(tasks, Shown(), i);
      modes := modes[i := Card];
      listening := listening[i := false];
    }

    /** `onEscKeyDown` of rendered task `i`, which runs only while it is
        registered. */
    method OnEscKeyDown(i: nat, key: string)
      requires Valid() && initialized && i < |rendered| && listening[i]
      modifies this`modes, this`listening
      ensures Valid()
      ensures Shown() == EscKeyDown(old(Shown()), i, key)
    {
      EscKeyDownStep(tasks, Shown(), i, key);
      if IsEscapeKey(key) {
        modes := modes[i := Card];
        listening := listening[i := false];
      }
    }

    /** A keydown delivered to the document, which runs every registered
        Escape listener. */
    method KeyDown(key: string)
      requires Valid() && initialized
      modifies this`modes, this`listening
      ensures Valid()
      ensures Shown() == BoardSpec.KeyDown(old(Shown()), key)
      ensures Shown() == RunListeners(old(Shown()), key, 0)
    {
      KeyDownStep(tasks, Shown(), key);
      KeyDownRunsEveryListener(Shown(), key);
      if IsEscapeKey(key) {
        var shown, registered := modes, listening;
        modes := seq(|shown|, k requires 0 <= k < |shown| =>
                       if registered[k] then Card else shown[k]);
        listening := seq(|registered|, _ => false);
      }
    }
  }
}
