# Task board presenter

This project models the board presenter of a small client-side task manager. The presenter is the `Board` class in `src/presenter/board.js`. Its `init` call takes a list of tasks and renders the board:

- If every task is archived, the board shows only a "no tasks" placeholder.
- Otherwise it shows a sort control, a first batch of up to 8 task cards and, if more tasks remain, a "load more" button.
- Each click on the button renders the next 8 tasks. A counter held by the click handler advances by 8 per click, and the button is removed once the counter reaches the number of tasks.
- Each task card can be swapped for its edit form by an edit click. A submit swaps it back. While the form is shown, a document-level keydown listener sends the task back to its card on `Escape` or `Esc`.

The model has two modules:

- `BoardSpec` (`board_spec.dfy`) is the pure model. A `View` value records what the presenter has put in the document: placeholder, sort, the rendered tasks in order, each rendered task's mode (`Card` or `Form`) and whether its Escape listener is registered, the handler's counter, and whether the button is present. Each event the presenter handles is a function on `View`. The lemmas prove what the presenter promises: the invariant `Inv` is kept, the rendered list is always a prefix of the task list, while tasks are shown (not every task archived) the button is present exactly while that prefix is incomplete, and the pagination and card/form toggles behave as listed below.
- `BoardPresenter` (`board_presenter.dfy`) is the imperative model. The class `Board` has one field per piece of state the presenter changes, and `Shown()` gives the `View` those fields make up. Each method mirrors one method or event handler of the source.
  - `Init` and the five event handlers (`ClickLoadMore`, `ClickEdit`, `SubmitForm`, `OnEscKeyDown`, `KeyDown`) are proved against the matching `BoardSpec` function and preserve `Valid()`, the invariant.
  - `RenderBoard`, `RenderTaskList`, `RenderTasks` and `RenderBatch` are proved against `Initial` or `AppendCards`. They run inside `Init`, and `RenderBatch` also inside `ClickLoadMore`; they do not mention `Valid()`.
  - `RenderNoTasks`, `RenderSort`, `RenderTask` and `RenderLoadMoreButton` state the field updates they make, with a frame that fixes every other field.

  The `forEach` loops over slices become a `while` loop that appends one card per step.

The list given to `init` is copied by `slice()` in the source. In the model it is stored as a sequence value, which no later event changes; every method after `Init` either leaves `tasks` out of its `modifies` frame or ensures `tasks == old(tasks)`.

The counter `renderedTaskCount` lives in a closure that exists only once the button has been created. The model keeps it as a field that is 0 until `_renderLoadMoreButton` sets it to 8.

The Escape listener is registered on the document, so one Escape keydown reaches every registered listener. `Board.KeyDown` models that delivery: it closes every open form at once. `Board.OnEscKeyDown` models a single task's listener, which changes only that task. `BoardSpec.KeyDownRunsEveryListener` proves that the document keydown equals running each registered listener in turn (`RunListeners`).

The events a user can trigger are edit clicks on a displayed card, submits of a displayed form, and clicks on a present button. The corresponding methods require that the card, form or button is on screen. A component that is not in the document cannot receive the event.

The presenter renders a sort component but has no sorting behaviour, so the model records only whether that component is shown.

## Model

| member | source | states |
|---|---|---|
| `BoardSpec.Slice` | src/presenter/board.js:78-79 | `slice(from, to)` with non-negative bounds: the length is `min(to, n) - from`, or 0 when `from` is at or past the clamped end; element k is `s[from + k]`; within bounds it is `s[from..to]` |
| `BoardSpec.AppendCards` | src/presenter/board.js:39-81 | rendering a batch keeps what was rendered, with its modes and listeners, and adds exactly the batch after it, in order, as cards with no listener; it keeps modes consistent with listeners |
| `BoardSpec.ClicksNeeded` | src/presenter/board.js:104-117 | no click is needed when `n <= 8`; otherwise the result `r` is the least click count for which the counter `8 + 8r` reaches `n`: `8r < n <= 8(r + 1)` |
| `BoardSpec.KeyDown` | src/presenter/board.js:54-64 | a keydown on the document leaves the rendered list, the counter and the button unchanged. On `Escape`/`Esc`, every task whose listener was registered returns to its card, no listener remains, and the other tasks keep their mode. Any other key changes nothing. Modes stay consistent with listeners |
| `BoardSpec.AllArchived` | src/presenter/board.js:124 | `every` over the tasks, from the first: true exactly when every task has `isArchive` set, so true of the empty list |
| `BoardSpec.Initial` | src/presenter/board.js:120-132 | the view `init` produces: the placeholder exactly when every task is archived, and the sort otherwise; no task when every task is archived, else `min(n, 8)` tasks; the button exactly when not all are archived and `n > 8`; every rendered task a card with no listener |
| `BoardSpec.LoadMore` | src/presenter/board.js:99-109 | the click handler's effect: the counter goes up by exactly 8; the button stays only if it was there and the new counter is below `n`; the tasks already rendered stay in front; at most 8 tasks are added; placeholder and sort unchanged; modes stay consistent with listeners |
| `BoardSpec.Clicks` | src/presenter/board.js:99-109 | `k` successive clicks while the button is there: the counter grows by at most `8k`; the rendered list only grows at its end; a button present afterwards was present before; placeholder and sort unchanged; modes stay consistent with listeners |
| `BoardSpec.EditClick` | src/presenter/board.js:62-65 | the edit-click handler's effect: task `i` shows its form with its listener registered, and nothing else changes |
| `BoardSpec.FormSubmit` | src/presenter/board.js:67-70 | the submit handler's effect: task `i` shows its card with its listener removed, and nothing else changes |
| `BoardSpec.EscKeyDown` | src/presenter/board.js:54-60 | task `i`'s listener: on `Escape` or `Esc` (the two keys tested by `IsEscapeKey`), the task shows its card and the listener is removed; on any other key nothing changes; no other task, nor the list or pagination, is touched |
| `BoardSpec.RunListenersCloses` | src/presenter/board.js:54-60 | delivering a keydown to the registered listeners from index `from` on, in order, leaves the list and the pagination unchanged; on `Escape`/`Esc` it turns exactly the registered tasks from `from` on back to cards and removes those listeners, and on any other key it changes nothing |
| `BoardSpec.KeyDownRunsEveryListener` | src/presenter/board.js:54-64 | one keydown on the document equals running each registered task's Escape listener in turn, so `KeyDown` and `EscKeyDown` agree |
| `BoardSpec.InitialRender` | src/presenter/board.js:112-132 | `init` establishes the invariant. All tasks archived (the empty list included): the placeholder only, with no sort, no cards and no button. Otherwise: the sort and exactly `tasks[..min(n, 8)]` in list order, archived tasks included, all as cards with no listener; the button exists iff `n > 8`, and then its counter is 8 |
| `BoardSpec.RenderedIsPrefix` | src/presenter/board.js:99-118 | under the invariant, the rendered list is a prefix of the task list, so no task is rendered twice; the button is present iff tasks are shown and the prefix is incomplete; at least the first `min(n, 8)` tasks are shown |
| `BoardSpec.LoadMoreStep` | src/presenter/board.js:99-109 | a click with the button present keeps the invariant and appends `tasks[c..min(c + 8, n)]` after the rendered tasks, leaving their modes and listeners unchanged. The counter becomes exactly `c + 8`. The button stays iff `c + 8 < n`; once it is gone, every task is rendered |
| `BoardSpec.ClicksAdvance` | src/presenter/board.js:93-109 | after `k` clicks from any reachable view on which the load-more button was created (`n > 8`, counter `c` not 0), the invariant holds, the rendered list is `tasks[..min(c + 8k, n)]`, and the button is present iff `c + 8k < n` |
| `BoardSpec.AllTasksShownAfterClicks` | src/presenter/board.js:104-108 | when not all tasks are archived, `ClicksNeeded(n)` clicks (0 if `n <= 8`, else `(n - 1) / 8`) render the whole list and remove the button; after fewer clicks the button is still present |
| `BoardSpec.LoadMoreKeepsOpenForms` | src/presenter/board.js:99-102 | a corollary of `LoadMoreStep`, task by task: a load-more click does not change the mode or listener of any task already rendered, so an open form stays open |
| `BoardSpec.EditClickStep` | src/presenter/board.js:62-65 | an edit click on a card shows that task's form and registers its listener; only that task's mode and listener change, and the invariant is kept |
| `BoardSpec.FormSubmitStep` | src/presenter/board.js:67-70 | a submit of a form shows that task's card and removes its listener; only that task's mode and listener change, and the invariant is kept |
| `BoardSpec.EditSubmitInverse` | src/presenter/board.js:46-70 | a submit undoes an edit click on a card, and an edit click undoes a submit of a form |
| `BoardSpec.EscKeyDownStep` | src/presenter/board.js:54-60 | a task's registered listener, on `Escape` or `Esc`, shows the card and removes the listener; on any other key it changes nothing; no other task, the counter and the button are unaffected, and the invariant is kept |
| `BoardSpec.KeyDownStep` | src/presenter/board.js:54-64 | a keydown on the document: `Escape`/`Esc` leaves every task as a card with no listener (cards stay cards); any other key changes nothing; the rendered list, counter and button never change; the invariant is kept |
| `BoardPresenter.Board.constructor` | src/presenter/board.js:13-20 | a new presenter has rendered nothing |
| `BoardPresenter.Board.Init` | src/presenter/board.js:22-31 | the stored tasks equal the argument, the view is `Initial(boardTasks)`, and the invariant holds |
| `BoardPresenter.Board.RenderBoard` | src/presenter/board.js:120-132 | from a blank board, renders `Initial(tasks)` by the placeholder-or-sort-and-list branch |
| `BoardPresenter.Board.RenderNoTasks` | src/presenter/board.js:83-87 | the placeholder is shown, and nothing else changes |
| `BoardPresenter.Board.RenderSort` | src/presenter/board.js:33-37 | the sort component is shown, and nothing else changes |
| `BoardPresenter.Board.RenderTaskList` | src/presenter/board.js:112-118 | when not every task is archived (its only call site), from a board showing only the sort, renders the first batch and, if `n > 8`, the button, which gives `Initial(tasks)` |
| `BoardPresenter.Board.RenderTasks` | src/presenter/board.js:75-81 | appends the cards of `tasks.slice(from, to)` in order |
| `BoardPresenter.Board.RenderBatch` | src/presenter/board.js:78-80 | the `forEach` loop: appends one card per task of the batch, in order, with no listener |
| `BoardPresenter.Board.RenderTask` | src/presenter/board.js:39-73 | appends the task as a card with no listener registered |
| `BoardPresenter.Board.RenderLoadMoreButton` | src/presenter/board.js:89-97 | the counter starts at 8 and the button is present |
| `BoardPresenter.Board.ClickLoadMore` | src/presenter/board.js:99-109 | the new view is `LoadMore(tasks, old view)`, the tasks are unchanged, and the invariant is kept |
| `BoardPresenter.Board.ClickEdit` | src/presenter/board.js:62-65 | the new view is `EditClick(old view, i)`, and the invariant is kept |
| `BoardPresenter.Board.SubmitForm` | src/presenter/board.js:67-70 | the new view is `FormSubmit(old view, i)`, and the invariant is kept |
| `BoardPresenter.Board.OnEscKeyDown` | src/presenter/board.js:54-60 | the new view is `EscKeyDown(old view, i, key)`, and the invariant is kept |
| `BoardPresenter.Board.KeyDown` | src/presenter/board.js:54-64 | the new view is `KeyDown(old view, key)`, which equals `RunListeners(old view, key, 0)`: every registered listener runs in turn, and the invariant is kept |

## Left out

- `src/main.js` is not part of this model. It is top-level wiring: mock task generation, the tasks and filter models, menu and filter views. It calls `init()` with no argument, where the presenter expects a task list. The model's `Init` takes an explicit task sequence instead.
- The DOM helpers `render`, `replace`, `remove` and `RenderPosition` (`src/utils/render.js`) are not part of this model, and neither are the view classes. The model abstracts them as appends to the rendered list, mode flips and flags. The placement of the sort and placeholder components (`AFTERBEGIN`/`BEFOREEND`) is layout and is not modelled.
- Browser event plumbing is not modelled: listener callbacks, `addEventListener`/`removeEventListener` and `preventDefault`. A registered Escape listener is a boolean per rendered task.
- BoardPresenter.Board.Init: requires a presenter that has not been initialised. A second `init` call in the source would append a second set of cards and a second button with its own counter; the model does not cover that.
- The task fields other than `isArchive` only affect markup. `description` stands in for them.
