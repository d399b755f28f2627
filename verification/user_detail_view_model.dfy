/** `UserDetailViewModel`: the detail screen's state machine. Unlike the list screen, its toggle
    trusts the cached `isFavorite` flag instead of asking the favourites table. */
module UserDetailViewModel {
  import opened Wrappers
  import opened Entities
  import Dao = FavoriteUserDao
  import Repo = UserRepository
  import List = UserListViewModel

  /** The published `UserDetailUiState`. */
  datatype DetailUiState = DetailUiState(user: Option<User>, isLoading: bool, error: Option<string>, isFavorite: bool)

  const DefaultDetailUiState: DetailUiState := DetailUiState(None, false, None, false)

  /** The cached flag agrees with the table about `user`. */
  predicate InSync(s: DetailUiState, t: Dao.Table, user: User) {
    s.isFavorite <==> user.login.uuid in t
  }

  /** `loadUserDetail` up to the suspension at `isFavorite`. */
  function BeginLoad(s: DetailUiState): (r: DetailUiState)
    ensures r.isLoading && r.error.None?
    ensures r.(isLoading := s.isLoading, error := s.error) == s
  {
    s.(isLoading := true, error := None)
  }

  /** `loadUserDetail` after the table answers (or throws). */
  function FinishLoad(s: DetailUiState, user: User, answer: Result<bool, Throwable>): (r: DetailUiState)
    ensures !r.isLoading
    ensures answer.Success? ==> r.user == Some(user) && r.isFavorite == answer.value && r.error == s.error
    ensures answer.Failure? ==> r.user == s.user && r.isFavorite == s.isFavorite
    ensures answer.Failure? && answer.error.message.Some? ==> r.error == answer.error.message
    ensures answer.Failure? && answer.error.message.None? ==> r.error == Some(List.LoadErrorFallback)
  {
    match answer
    case Success(isFavorite) => s.(user := Some(user), isFavorite := isFavorite, isLoading := false)
    case Failure(e) => s.(isLoading := false, error := Some(MessageOr(e, List.LoadErrorFallback)))
  }

  /** `loadUserDetail` against a table that answers: the screen shows the user, free of error,
      with a flag in sync with the table. */
  lemma LoadedDetailIsInSync(s: DetailUiState, t: Dao.Table, user: User)
    ensures var r := FinishLoad(BeginLoad(s), user, Success(Repo.IsFavorite(t, user.login.uuid)));
            && InSync(r, t, user) && r.user == Some(user) && r.error.None? && !r.isLoading
  {
  }

  /** The outcome of a favourite toggle: the screen state and the favourites table. */
  datatype Toggled = Toggled(ui: DetailUiState, table: Dao.Table)

  /** `toggleFavorite(user)`: removes the user when the cached flag says favourite and adds them
      otherwise, then flips the flag. `fault` is the exception a table call throws, if one does;
      the table and the flag are then unchanged and only the error is set. */
  function ToggleFavorite(s: DetailUiState, t: Dao.Table, user: User, fault: Option<Throwable>): (r: Toggled)
    ensures fault.None? ==> r.ui.isFavorite == !s.isFavorite
    ensures fault.None? ==> r.ui.(isFavorite := s.isFavorite) == s
    ensures fault.None? && s.isFavorite ==> r.table == Repo.RemoveFromFavorites(t, user.login.uuid)
    ensures fault.None? && !s.isFavorite ==> r.table == Repo.AddToFavorites(t, user)
    ensures fault.Some? ==> r.table == t && r.ui.isFavorite == s.isFavorite
    ensures fault.Some? ==> r.ui == s.(error := Some(MessageOr(fault.value, List.FavoriteErrorFallback)))
  {
    match fault
    case Some(e) => Toggled(s.(error := Some(MessageOr(e, List.FavoriteErrorFallback))), t)
    case None =>
      var current := s.isFavorite;
      var table := if current then Repo.RemoveFromFavorites(t, user.login.uuid) else Repo.AddToFavorites(t, user);
      Toggled(s.(isFavorite := !current), table)
  }

  /** `clearError`: drops the error and changes nothing else. */
  function ClearError(s: DetailUiState): (r: DetailUiState)
    ensures r.error.None?
    ensures r.(error := s.error) == s
  {
    s.(error := None)
  }

  /** Every other step keeps a flag that is in sync in sync: starting a load, clearing the error,
      a failed load and a failed toggle leave `isFavorite` and the table as they were. */
  lemma OtherStepsKeepSync(s: DetailUiState, t: Dao.Table, user: User, other: User, e: Throwable)
    requires InSync(s, t, user)
    ensures InSync(BeginLoad(s), t, user)
    ensures InSync(ClearError(s), t, user)
    ensures InSync(FinishLoad(s, other, Failure(e)), t, user)
    ensures var r := ToggleFavorite(s, t, other, Some(e)); InSync(r.ui, r.table, user)
  {
  }

  /** Two successful toggles restore the flag; they restore the table exactly when the flag was
      in sync with it and any stored row is the one the toggle writes. */
  lemma ToggleTwice(s: DetailUiState, t: Dao.Table, user: User)
    ensures var once := ToggleFavorite(s, t, user, None);
            var twice := ToggleFavorite(once.ui, once.table, user, None);
            && twice.ui == s
            && (twice.table == t <==>
                  (InSync(s, t, user) && (user.login.uuid in t ==> t[user.login.uuid] == Repo.ToFavoriteUser(user))))
  {
  }

  /** A successful toggle keeps a flag that was in sync in sync; from a stale flag it repairs the
      flag without changing membership in the table. */
  lemma ToggleAndSync(s: DetailUiState, t: Dao.Table, user: User)
    ensures var r := ToggleFavorite(s, t, user, None);
            && (InSync(s, t, user) ==> InSync(r.ui, r.table, user))
            && (!InSync(s, t, user) ==> InSync(r.ui, t, user) && (user.login.uuid in r.table <==> user.login.uuid in t))
  {
  }

  /** The two screens' toggles make the same change to the table exactly when the detail
      screen's flag is in sync with it: the list screen asks the table, the detail screen does
      not. */
  lemma TogglesAgreeIffInSync(vm: List.ViewModel, s: DetailUiState, t: Dao.Table, user: User)
    ensures List.ToggleFavorite(vm, t, user, None).table == ToggleFavorite(s, t, user, None).table
            <==> InSync(s, t, user)
  {
  }
}
