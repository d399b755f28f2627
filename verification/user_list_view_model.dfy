/** `UserListViewModel`: the list screen's paging / search / favourites state machine.
    Each public method is a pure transition. `loadUsers` suspends at the remote call, so it is
    split into `StartLoad` (everything before the suspension) and `CompleteLoad` (the fold over
    the fetch result); other events may run between the two. */
module UserListViewModel {
  import opened Wrappers
  import opened Text
  import opened Entities
  import Dao = FavoriteUserDao
  import Repo = UserRepository

  /** Page size requested by every load. */
  const PageSize: int := 10
  const LoadErrorFallback: string := "Error desconocido"
  const FavoriteErrorFallback: string := "Error al actualizar favoritos"

  /** The published `UserListUiState`. */
  datatype UiState = UiState(
    users: seq<User>,
    isLoading: bool,
    error: Option<string>,
    searchQuery: string,
    favoriteUsers: set<string>,
    currentPage: int,
    totalPages: int,
    hasNextPage: bool,
    hasPreviousPage: bool)

  const DefaultUiState: UiState := UiState([], false, None, "", {}, 1, 1, false, false)

  /** The published state plus the three private fields. Pages are Kotlin `Int`s; no load can
      move a counter far enough for 32-bit wrap-around to matter, so they are plain `int`s. */
  datatype ViewModel = ViewModel(ui: UiState, currentPage: int, isLastPage: bool, isLoading: bool)

  /** Field values before `init` runs. */
  const Fresh: ViewModel := ViewModel(DefaultUiState, 1, false, false)

  /** The arguments of the `userRepository.getUsers` call a load suspends on. */
  datatype FetchRequest = FetchRequest(page: int, results: int, nationality: Option<string>)

  /** The state after an event, and the fetch it started, if any. */
  datatype Step = Step(vm: ViewModel, fetch: Option<FetchRequest>)

  /** `loadUsers(nationality, isRefresh)` up to the suspension at `getUsers`. */
  function StartLoad(vm: ViewModel, nationality: Option<string>, isRefresh: bool): (s: Step)
    ensures vm.isLoading ==> s == Step(vm, None)
    ensures !vm.isLoading ==> s.fetch == Some(FetchRequest(s.vm.currentPage, PageSize, nationality))
    ensures !vm.isLoading ==> s.vm.currentPage == (if isRefresh then 1 else vm.currentPage)
    ensures !vm.isLoading ==> s.vm.isLoading && s.vm.ui.isLoading && s.vm.ui.error.None?
    ensures !vm.isLoading ==> s.vm.ui.(isLoading := vm.ui.isLoading, error := vm.ui.error) == vm.ui
  {
    if vm.isLoading then Step(vm, None)
    else
      var page := if isRefresh then 1 else vm.currentPage;
      var isLastPage := if isRefresh then false else vm.isLastPage;
      var ui := vm.ui.(isLoading := true, error := None);
      Step(ViewModel(ui, page, isLastPage, true), Some(FetchRequest(page, PageSize, nationality)))
  }

  /** `loadUsers` after `getUsers` resumes: the fold over the result. */
  function CompleteLoad(vm: ViewModel, outcome: Result<seq<User>, Throwable>): (r: ViewModel)
    requires vm.isLoading
    ensures !r.isLoading && !r.ui.isLoading
    ensures r.currentPage == vm.currentPage
    ensures r.ui.searchQuery == vm.ui.searchQuery && r.ui.favoriteUsers == vm.ui.favoriteUsers
    ensures r.ui.totalPages == vm.ui.totalPages
    // success: the page replaces the list, and the paging flags describe it
    ensures outcome.Success? ==> r.ui.users == outcome.value && r.ui.error.None?
    ensures outcome.Success? ==> r.ui.currentPage == vm.currentPage
    ensures outcome.Success? ==> (r.ui.hasNextPage <==> |outcome.value| == PageSize)
    ensures outcome.Success? ==> (r.ui.hasPreviousPage <==> vm.currentPage > 1)
    ensures outcome.Success? ==> (r.isLastPage <==> |outcome.value| < PageSize)
    // failure: the displayed page is kept and only the error is reported
    ensures outcome.Failure? ==> r.ui.users == vm.ui.users && r.ui.currentPage == vm.ui.currentPage
    ensures outcome.Failure? ==> r.ui.hasNextPage == vm.ui.hasNextPage && r.ui.hasPreviousPage == vm.ui.hasPreviousPage
    ensures outcome.Failure? ==> r.isLastPage == vm.isLastPage
    ensures outcome.Failure? && outcome.error.message.Some? ==> r.ui.error == outcome.error.message
    ensures outcome.Failure? && outcome.error.message.None? ==> r.ui.error == Some(LoadErrorFallback)
  {
    match outcome
    case Success(newUsers) =>
      var ui := vm.ui.(
        users := newUsers,
        isLoading := false,
        error := None,
        currentPage := vm.currentPage,
        hasNextPage := |newUsers| == PageSize,
        hasPreviousPage := vm.currentPage > 1);
      ViewModel(ui, vm.currentPage, |newUsers| < PageSize, false)
    case Failure(e) =>
      var ui := vm.ui.(isLoading := false, error := Some(MessageOr(e, LoadErrorFallback)));
      vm.(ui := ui, isLoading := false)
  }

  /** `init`: the first `loadUsers()` (unfiltered, not a refresh). */
  function Init(): (s: Step)
    ensures s.fetch == Some(FetchRequest(1, PageSize, None))
    ensures s.vm.isLoading && s.vm.currentPage == 1 && s.vm.ui.currentPage == 1
    ensures s.vm == ViewModel(DefaultUiState.(isLoading := true), 1, false, true)
  {
    StartLoad(Fresh, None, false)
  }

  /** `goToNextPage`: acts only when a next page is advertised and nothing is loading; it then
      raises the private counter by one and loads that page under the current query. */
  function GoToNextPage(vm: ViewModel): (s: Step)
    ensures vm.ui.hasNextPage && !vm.isLoading ==>
      && s.vm.currentPage == vm.currentPage + 1
      && s.fetch == Some(FetchRequest(vm.currentPage + 1, PageSize, Some(vm.ui.searchQuery)))
      && s.vm.isLoading
    ensures vm.ui.hasNextPage && !vm.isLoading ==>
      s.vm.ui == vm.ui.(isLoading := true, error := None) && s.vm.isLastPage == vm.isLastPage
    ensures !(vm.ui.hasNextPage && !vm.isLoading) ==> s == Step(vm, None)
  {
    if vm.ui.hasNextPage && !vm.isLoading then
      StartLoad(vm.(currentPage := vm.currentPage + 1), Some(vm.ui.searchQuery), false)
    else
      Step(vm, None)
  }

  /** `goToPreviousPage`: the mirror image, guarded by `hasPreviousPage`. */
  function GoToPreviousPage(vm: ViewModel): (s: Step)
    ensures vm.ui.hasPreviousPage && !vm.isLoading ==>
      && s.vm.currentPage == vm.currentPage - 1
      && s.fetch == Some(FetchRequest(vm.currentPage - 1, PageSize, Some(vm.ui.searchQuery)))
      && s.vm.isLoading
    ensures vm.ui.hasPreviousPage && !vm.isLoading ==>
      s.vm.ui == vm.ui.(isLoading := true, error := None) && s.vm.isLastPage == vm.isLastPage
    ensures !(vm.ui.hasPreviousPage && !vm.isLoading) ==> s == Step(vm, None)
  {
    if vm.ui.hasPreviousPage && !vm.isLoading then
      StartLoad(vm.(currentPage := vm.currentPage - 1), Some(vm.ui.searchQuery), false)
    else
      Step(vm, None)
  }

  /** `searchUsers(nationality)`: always records the raw query; a load that passes the guard
      restarts at page 1 and sends null for a blank query. */
  function SearchUsers(vm: ViewModel, query: string): (s: Step)
    ensures s.vm.ui.searchQuery == query
    ensures vm.isLoading ==> s.fetch.None? && s.vm == vm.(ui := vm.ui.(searchQuery := query))
    ensures !vm.isLoading ==> s.fetch.Some? && s.vm.currentPage == 1
    ensures !vm.isLoading ==> s.fetch.value.page == 1 && s.fetch.value.results == PageSize
    ensures !vm.isLoading ==> (s.fetch.value.nationality.None? <==> IsBlank(query))
    ensures !vm.isLoading && s.fetch.value.nationality.Some? ==> s.fetch.value.nationality.value == query
    ensures !vm.isLoading ==> s.vm == ViewModel(vm.ui.(searchQuery := query, isLoading := true, error := None), 1, false, true)
  {
    var recorded := vm.(ui := vm.ui.(searchQuery := query));
    StartLoad(recorded, IfBlankNull(query), true)
  }

  /** `refreshUsers`: reload page 1 under the recorded query, passed on verbatim. */
  function RefreshUsers(vm: ViewModel): (s: Step)
    ensures vm.isLoading ==> s == Step(vm, None)
    ensures !vm.isLoading ==> s.fetch == Some(FetchRequest(1, PageSize, Some(vm.ui.searchQuery)))
    ensures !vm.isLoading ==> s.vm == ViewModel(vm.ui.(isLoading := true, error := None), 1, false, true)
  {
    StartLoad(vm, Some(vm.ui.searchQuery), true)
  }

  /** `clearError`: drops the error and changes nothing else. */
  function ClearError(vm: ViewModel): (r: ViewModel)
    ensures r.ui.error.None?
    ensures r.(ui := r.ui.(error := vm.ui.error)) == vm
  {
    vm.(ui := vm.ui.(error := None))
  }

  /** The uuids listed in one emission of the favourites query. */
  function Uuids(rows: seq<FavoriteUser>): (ids: set<string>)
    ensures forall i :: 0 <= i < |rows| ==> rows[i].uuid in ids
    ensures forall id :: id in ids ==> exists i :: 0 <= i < |rows| && rows[i].uuid == id
  {
    set i | 0 <= i < |rows| :: rows[i].uuid
  }

  /** The `observeFavorites` collector: a snapshot replaces `favoriteUsers` with the set of its
      uuids and touches nothing else; no fetch is started. */
  function FavoritesArrived(vm: ViewModel, rows: seq<FavoriteUser>): (r: ViewModel)
    ensures forall id :: id in r.ui.favoriteUsers <==> exists i :: 0 <= i < |rows| && rows[i].uuid == id
    ensures r.(ui := r.ui.(favoriteUsers := vm.ui.favoriteUsers)) == vm
  {
    vm.(ui := vm.ui.(favoriteUsers := Uuids(rows)))
  }

  /** The outcome of a favourite toggle: the view model and the favourites table. */
  datatype Toggled = Toggled(vm: ViewModel, table: Dao.Table)

  /** `toggleFavorite(user)`: asks the table whether the user is a favourite, removes them if so
      and adds them otherwise. The screen learns of the change only through the next snapshot.
      `fault` is the exception a table call throws, if one does; the table is then unchanged. */
  function ToggleFavorite(vm: ViewModel, t: Dao.Table, user: User, fault: Option<Throwable>): (r: Toggled)
    ensures fault.None? ==> r.vm == vm
    ensures fault.None? ==> (user.login.uuid in r.table <==> user.login.uuid !in t)
    ensures fault.None? && user.login.uuid in t ==> r.table == Repo.RemoveFromFavorites(t, user.login.uuid)
    ensures fault.None? && user.login.uuid !in t ==> r.table == Repo.AddToFavorites(t, user)
    ensures fault.Some? ==> r.table == t
    ensures fault.Some? ==> r.vm == vm.(ui := vm.ui.(error := Some(MessageOr(fault.value, FavoriteErrorFallback))))
  {
    match fault
    case Some(e) =>
      Toggled(vm.(ui := vm.ui.(error := Some(MessageOr(e, FavoriteErrorFallback)))), t)
    case None =>
      if Repo.IsFavorite(t, user.login.uuid) then
        Toggled(vm, Repo.RemoveFromFavorites(t, user.login.uuid))
      else
        Toggled(vm, Repo.AddToFavorites(t, user))
  }

  /** A load requested while one is in flight is dropped, whichever method asked for it. */
  lemma LoadWhileLoadingIsDropped(vm: ViewModel, nationality: Option<string>, isRefresh: bool)
    requires vm.isLoading
    ensures StartLoad(vm, nationality, isRefresh) == Step(vm, None)
    ensures GoToNextPage(vm) == Step(vm, None)
    ensures GoToPreviousPage(vm) == Step(vm, None)
    ensures RefreshUsers(vm) == Step(vm, None)
  {
  }

  /** The list toggle ignores the screen's `favoriteUsers` cache: two view models that differ
      only there make the same change to the table. */
  lemma ToggleIgnoresCachedFavourites(vm: ViewModel, cached: set<string>, t: Dao.Table, user: User)
    ensures ToggleFavorite(vm, t, user, None).table == ToggleFavorite(vm.(ui := vm.ui.(favoriteUsers := cached)), t, user, None).table
  {
  }

  /** Two successful list toggles restore the table exactly when the user was absent or stored
      as the row the toggle would write. */
  lemma ToggleTwice(vm: ViewModel, t: Dao.Table, user: User)
    ensures var once := ToggleFavorite(vm, t, user, None);
            var twice := ToggleFavorite(once.vm, once.table, user, None);
            && twice.vm == vm
            && (user.login.uuid in twice.table <==> user.login.uuid in t)
            && (twice.table == t <==> (user.login.uuid in t ==> t[user.login.uuid] == Repo.ToFavoriteUser(user)))
  {
  }

  /** A snapshot that lists exactly the table's rows makes `favoriteUsers` the table's key set. */
  lemma SnapshotOfTableShowsItsKeys(vm: ViewModel, t: Dao.Table, rows: seq<FavoriteUser>)
    requires Dao.Keyed(t)
    requires forall i :: 0 <= i < |rows| ==> rows[i].uuid in t && t[rows[i].uuid] == rows[i]
    requires forall k :: k in t ==> t[k] in rows
    ensures FavoritesArrived(vm, rows).ui.favoriteUsers == t.Keys
  {
  }

  /** After `goToNextPage` and a successful load, `goToPreviousPage` asks for the page the
      counter stood at before, exactly when that page is at least 1. */
  lemma NextThenPreviousReturns(vm: ViewModel, page: seq<User>)
    requires vm.ui.hasNextPage && !vm.isLoading
    ensures (GoToPreviousPage(CompleteLoad(GoToNextPage(vm).vm, Success(page))).fetch
              == Some(FetchRequest(vm.currentPage, PageSize, Some(vm.ui.searchQuery))))
            <==> vm.currentPage >= 1
  {
  }
}
