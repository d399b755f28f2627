/** Runs of the list screen: the view model, the load it is suspended on (if any), and the
    favourites table, driven by a sequence of events. The remote answer of each load is carried
    by its `Complete` event; each favourites emission by a `Snapshot` event. */
module UserListTraces {
  import opened Wrappers
  import opened Entities
  import Dao = FavoriteUserDao
  import opened UserListViewModel

  datatype Event =
    | Next
    | Previous
    | Search(query: string)
    | Refresh
    | Complete(outcome: Result<seq<User>, Throwable>)
    | Clear
    | Snapshot(rows: seq<FavoriteUser>)
    | Toggle(user: User, fault: Option<Throwable>)

  /** `inFlight` is the request the suspended `loadUsers` coroutine waits on. */
  datatype World = World(vm: ViewModel, inFlight: Option<FetchRequest>, table: Dao.Table)

  /** Construction: the first load has started and nothing has completed yet. */
  function Launch(t: Dao.Table): (w: World)
    ensures w.inFlight == Some(FetchRequest(1, PageSize, None))
    ensures w.vm.isLoading && w.table == t
  {
    var s := Init();
    World(s.vm, s.fetch, t)
  }

  function AfterStep(w: World, s: Step): World {
    World(s.vm, if s.fetch.Some? then s.fetch else w.inFlight, w.table)
  }

  /** One event. A completion only ever arrives for a load in flight; any other is ignored. */
  function Apply(w: World, e: Event): World {
    match e
    case Next => AfterStep(w, GoToNextPage(w.vm))
    case Previous => AfterStep(w, GoToPreviousPage(w.vm))
    case Search(q) => AfterStep(w, SearchUsers(w.vm, q))
    case Refresh => AfterStep(w, RefreshUsers(w.vm))
    case Complete(o) => if w.vm.isLoading then World(CompleteLoad(w.vm, o), None, w.table) else w
    case Clear => w.(vm := ClearError(w.vm))
    case Snapshot(rows) => w.(vm := FavoritesArrived(w.vm, rows))
    case Toggle(user, fault) =>
      var r := ToggleFavorite(w.vm, w.table, user, fault);
      World(r.vm, w.inFlight, r.table)
  }

  function Run(w: World, es: seq<Event>): World
    decreases |es|
  {
    if es == [] then w else Run(Apply(w, es[0]), es[1..])
  }

  /** What holds in every run, failures included: `hasPreviousPage` says exactly that the
      displayed page is above 1, `hasNextPage` is only shown over a full page, both loading flags
      agree, and a load is in flight exactly when they are set, for the page the private counter
      holds. (The displayed page itself can fall below 1; see `FailedLoadsLetCounterDrift`.) */
  predicate Consistent(w: World) {
    && (w.vm.ui.hasPreviousPage <==> w.vm.ui.currentPage > 1)
    && (w.vm.ui.hasNextPage ==> |w.vm.ui.users| == PageSize)
    && w.vm.isLoading == w.vm.ui.isLoading
    && (w.vm.isLoading <==> w.inFlight.Some?)
    && (w.inFlight.Some? ==> w.inFlight.value.page == w.vm.currentPage && w.inFlight.value.results == PageSize)
  }

  /** What holds while every load succeeds: the private counter is at least 1 and, whenever no
      load is in flight, equals the displayed page. */
  predicate InStep(w: World) {
    && Consistent(w)
    && w.vm.currentPage >= 1
    && w.vm.ui.currentPage >= 1
    && (!w.vm.isLoading ==> w.vm.currentPage == w.vm.ui.currentPage)
  }

  predicate AllLoadsSucceed(es: seq<Event>) {
    forall i :: 0 <= i < |es| && es[i].Complete? ==> es[i].outcome.Success?
  }

  lemma LaunchInStep(t: Dao.Table)
    ensures InStep(Launch(t))
  {
  }

  /** Every event keeps a run consistent. */
  lemma ApplyKeepsConsistent(w: World, e: Event)
    requires Consistent(w)
    ensures Consistent(Apply(w, e))
  {
  }

  /** A completed load shows the page that was requested for it, whatever ran in between. */
  lemma CompletionShowsRequestedPage(w: World, users: seq<User>)
    requires Consistent(w) && w.inFlight.Some?
    ensures Apply(w, Complete(Success(users))).vm.ui.currentPage == w.inFlight.value.page
    ensures Apply(w, Complete(Success(users))).vm.ui.users == users
  {
  }

  lemma {:induction false} RunKeepsConsistent(w: World, es: seq<Event>)
    requires Consistent(w)
    ensures Consistent(Run(w, es))
    decreases |es|
  {
    if es != [] {
      ApplyKeepsConsistent(w, es[0]);
      RunKeepsConsistent(Apply(w, es[0]), es[1..]);
    }
  }

  /** Every event other than a failed completion keeps the counter in step with the display. */
  lemma ApplyKeepsInStep(w: World, e: Event)
    requires InStep(w)
    requires e.Complete? ==> e.outcome.Success?
    ensures InStep(Apply(w, e))
  {
  }

  lemma {:induction false} RunKeepsInStep(w: World, es: seq<Event>)
    requires InStep(w)
    requires AllLoadsSucceed(es)
    ensures InStep(Run(w, es))
    decreases |es|
  {
    if es != [] {
      ApplyKeepsInStep(w, es[0]);
      assert AllLoadsSucceed(es[1..]) by {
        forall i | 0 <= i < |es[1..]| && es[1..][i].Complete?
          ensures es[1..][i].outcome.Success?
        {
          assert es[1..][i] == es[i + 1];
        }
      }
      RunKeepsInStep(Apply(w, es[0]), es[1..]);
    }
  }

  /** From construction, while every load succeeds, the page counter never drops below 1 and
      matches the displayed page whenever nothing is loading. */
  lemma SuccessfulRunsStayInStep(t: Dao.Table, es: seq<Event>)
    requires AllLoadsSucceed(es)
    ensures var w := Run(Launch(t), es);
            && w.vm.currentPage >= 1 && w.vm.ui.currentPage >= 1
            && (!w.vm.isLoading ==> w.vm.currentPage == w.vm.ui.currentPage)
  {
    LaunchInStep(t);
    RunKeepsInStep(Launch(t), es);
  }

  /** Failed loads do not roll the counter back: with page 2 on screen, two failed
      "previous page" loads leave the counter at 0 while the screen still shows page 2 and
      still offers "previous"; the next attempt requests page -1, and if it succeeds the screen
      shows page -1. */
  lemma FailedLoadsLetCounterDrift(somebody: User, e: Throwable)
    ensures var full := seq(PageSize, _ => somebody);
            var es := [Complete(Success(full)), Next, Complete(Success(full)),
                       Previous, Complete(Failure(e)), Previous, Complete(Failure(e)), Previous];
            var w := Run(Launch(Dao.Empty), es);
            && w.vm.ui.currentPage == 2
            && w.vm.ui.hasPreviousPage
            && w.vm.ui.users == full
            && w.inFlight == Some(FetchRequest(-1, PageSize, Some("")))
            && Apply(w, Complete(Success([]))).vm.ui.currentPage == -1
  {
    var full := seq(PageSize, _ => somebody);
    var es := [Complete(Success(full)), Next, Complete(Success(full)),
               Previous, Complete(Failure(e)), Previous, Complete(Failure(e)), Previous];
    var w0 := Launch(Dao.Empty);
    var w1 := Apply(w0, es[0]);
    // page 1 is full, so "next" is offered
    var w2 := Apply(w1, es[1]);
    var w3 := Apply(w2, es[2]);
    // page 2 is on screen and "previous" is offered
    var w4 := Apply(w3, es[3]);
    var w5 := Apply(w4, es[4]);
    // the load of page 1 failed: the counter says 1, the screen still says 2
    var w6 := Apply(w5, es[5]);
    var w7 := Apply(w6, es[6]);
    // the load of page 0 failed: the counter says 0, the screen still says 2
    var w8 := Apply(w7, es[7]);
    assert Run(w0, es) == Run(w1, es[1..]);
    assert Run(w1, es[1..]) == Run(w2, es[2..]);
    assert Run(w2, es[2..]) == Run(w3, es[3..]);
    assert Run(w3, es[3..]) == Run(w4, es[4..]);
    assert Run(w4, es[4..]) == Run(w5, es[5..]);
    assert Run(w5, es[5..]) == Run(w6, es[6..]);
    assert Run(w6, es[6..]) == Run(w7, es[7..]);
    assert Run(w7, es[7..]) == Run(w8, es[8..]);
  }
}
