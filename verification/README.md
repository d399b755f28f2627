# Paged user directory with favourites: a Dafny model

This project models the core of an Android app that lists remote user records ten at a time,
filters them by nationality, and lets the user mark favourites that are kept in a local
`favorite_users` table. The model covers four pieces:

- **`UserListViewModel`**, the list screen's state machine. It holds the published
  `UserListUiState` and the private `currentPage`, `isLastPage` and `isLoading` fields.
- **`UserDetailViewModel`**, the detail screen's smaller state machine.
- **`UserRepository`**, which derives the paging seed, passes paging arguments to the remote
  call, wraps its exceptions, and maps a user to a favourite row.
- **`FavoriteUserDao`**, the favourites table, modelled as a map from the primary key `uuid`
  to the row.

Every view-model method is a pure function from the old state to the new one.
`loadUsers` suspends at the remote call, so other events can run in the middle. It is therefore
modelled as two events: `StartLoad` is everything before the suspension, and `CompleteLoad` is
the fold over the fetch result. `UserListTraces` runs the list screen over event sequences. Its
`World` holds the view model, the request the suspended load waits on, and the favourites
table. The remote service is a function parameter of type `RandomUserApi`. A load's answer
arrives as the `Complete` event's argument, and each emission of the favourites query arrives
as a `Snapshot` event.

The model follows the code as written, including where the code is not an idealised pager:

- `goToNextPage` and `goToPreviousPage` move the private counter before fetching.
- A failed load neither rolls that counter back nor touches the displayed page or its flags.
  `FailedLoadsLetCounterDrift` exhibits a run where the counter reaches 0 while the screen
  still shows page 2. The next request is for page -1, and if it succeeds the screen shows
  page -1.
- While every load succeeds, the counter stays at least 1 and in step with the display
  (`SuccessfulRunsStayInStep`).
- `goToPreviousPage` is guarded by the displayed `hasPreviousPage`
  (UserListViewModel.kt:94), not by the counter being above 1.
- `goToNextPage`, `goToPreviousPage` and `refreshUsers` forward the recorded `searchQuery`
  verbatim (UserListViewModel.kt:89, 96, 127). Only `searchUsers` turns a blank query into null
  (UserListViewModel.kt:102), so after a blank search, and for a refresh before any search, the
  blank string is sent as the nationality. The seed is the same either way
  (`SeedIgnoresBlankForwarding`). The unit tests stub the refresh fetch as
  `getUsers(1, 10, null)` (UserListViewModelTest.kt:66-73, 80-84), but the code sends `""`.
- `searchUsers` records its query before the in-flight guard (UserListViewModel.kt:101), so the
  query is recorded even when the fetch is dropped.
- `toggleFavorite` returns nothing. The list screen learns the new state only from the next
  favourites snapshot (UserListViewModel.kt:114).
- The two screens' favourite toggles differ. The list screen asks the table; the detail screen
  trusts its cached flag. `TogglesAgreeIffInSync` proves that they make the same change exactly
  when that flag agrees with the table.

`viewModelScope` runs on `Dispatchers.Main.immediate`. So the body of each `launch` runs
synchronously up to its first suspension, and `StartLoad` is one atomic step. Whitespace
follows Kotlin/JVM `Char.isWhitespace`.

## Model

| member | source | states |
|---|---|---|
| FavoriteUserDao.InsertFavorite | app/src/main/java/com/example/desafiogalicia/data/local/dao/FavoriteUserDao.kt:16-17 | REPLACE upsert: the row under `f.uuid` becomes `f`, the key set gains only `f.uuid`, every other row is unchanged, and keying by own uuid is preserved |
| FavoriteUserDao.GetFavoriteByUuid | app/src/main/java/com/example/desafiogalicia/data/local/dao/FavoriteUserDao.kt:13-14 | returns the stored row exactly when the key is present, null otherwise; the row returned carries that uuid |
| FavoriteUserDao.DeleteFavorite | app/src/main/java/com/example/desafiogalicia/data/local/dao/FavoriteUserDao.kt:19-20 | deletes by the entity's primary key alone; every other row is unchanged |
| FavoriteUserDao.DeleteFavoriteByUuid | app/src/main/java/com/example/desafiogalicia/data/local/dao/FavoriteUserDao.kt:22-23 | removes only key `uuid`; deleting an absent key leaves the table as it was |
| FavoriteUserDao.IsFavorite | app/src/main/java/com/example/desafiogalicia/data/local/dao/FavoriteUserDao.kt:25-26 | EXISTS is true exactly when a lookup by that uuid finds a row |
| FavoriteUserDao.GetAllFavorites | app/src/main/java/com/example/desafiogalicia/data/local/dao/FavoriteUserDao.kt:10-11 | one emission lists every stored row exactly once: as many rows as keys, each a stored row, no uuid twice, none missing |
| FavoriteUserDao.InsertSize | app/src/main/java/com/example/desafiogalicia/data/local/dao/FavoriteUserDao.kt:16-17 | re-inserting an existing uuid does not grow the table; a new uuid adds exactly one row |
| FavoriteUserDao.KeyedRowsAreUnique | app/src/main/java/com/example/desafiogalicia/data/local/entity/FavoriteUser.kt:8-9 | with `uuid` as primary key, no two stored rows share a uuid |
| FavoriteUserDao.DeletesAgree | app/src/main/java/com/example/desafiogalicia/data/local/dao/FavoriteUserDao.kt:19-23 | deleting an entity and deleting by its uuid leave the same table |
| FavoriteUserDao.InsertThenDeleteRestores | app/src/main/java/com/example/desafiogalicia/data/local/dao/FavoriteUserDao.kt:16-23 | inserting under a fresh key and deleting that key restores the table |
| Entities.MessageOr | app/src/main/java/com/example/desafiogalicia/presentation/screens/userlist/UserListViewModel.kt:77 | `message ?: fallback`: the exception's message when it has one, the fallback text otherwise |
| Text.IfBlankNull | app/src/main/java/com/example/desafiogalicia/presentation/screens/userlist/UserListViewModel.kt:102 | `ifBlank { null }` gives null exactly for blank queries and the query verbatim otherwise |
| UserRepository.Seed | app/src/main/java/com/example/desafiogalicia/data/repository/UserRepository.kt:24-28 | the seed is `"challenge"` exactly when the nationality is null or blank, otherwise `"challenge-"` followed by it |
| UserRepository.SeedInjective | app/src/main/java/com/example/desafiogalicia/data/repository/UserRepository.kt:24-28 | equal seeds come from filters that are both absent/blank or carry the same nationality, so distinct nationalities never share a seed |
| UserRepository.SeedIgnoresBlankForwarding | app/src/main/java/com/example/desafiogalicia/data/repository/UserRepository.kt:24-28 | a query forwarded verbatim or through `ifBlank { null }` gets the same seed |
| UserRepository.GetUsers | app/src/main/java/com/example/desafiogalicia/data/repository/UserRepository.kt:17-40 | one remote request carries `results`, `page` and `nationality` unchanged plus the derived seed; success returns exactly the response's `results`, failure carries the very exception thrown |
| UserRepository.ToFavoriteUser | app/src/main/java/com/example/desafiogalicia/data/repository/UserRepository.kt:48-54 | the favourite row copies `login.uuid`, `name.fullName`, `email`, `location.country` and `picture.large` |
| UserRepository.AddToFavorites | app/src/main/java/com/example/desafiogalicia/data/repository/UserRepository.kt:47-56 | upserts exactly the user's row under their uuid and leaves every other key unchanged |
| UserRepository.RemoveFromFavorites | app/src/main/java/com/example/desafiogalicia/data/repository/UserRepository.kt:58-60 | removes only the row keyed by the uuid; absent keys are a no-op |
| UserRepository.IsFavorite | app/src/main/java/com/example/desafiogalicia/data/repository/UserRepository.kt:62-64 | answers the table's membership for the uuid verbatim |
| UserRepository.AddRemoveMembership | app/src/main/java/com/example/desafiogalicia/data/repository/UserRepository.kt:47-64 | after adding, the user is a favourite stored as their mapped row; after removing, they are not |
| UserListViewModel.StartLoad | app/src/main/java/com/example/desafiogalicia/presentation/screens/userlist/UserListViewModel.kt:41-60 | while a load is in flight a new one changes nothing and fetches nothing; otherwise a refresh resets the counter to 1, loading is set, the error cleared, and page = counter, size 10 and the nationality are requested |
| UserListViewModel.CompleteLoad | app/src/main/java/com/example/desafiogalicia/presentation/screens/userlist/UserListViewModel.kt:61-82 | success replaces `users` by exactly the page, shows the counter's page, `hasNextPage` iff 10 rows, `hasPreviousPage` iff page > 1, clears the error; failure keeps users, page and flags and sets the message or "Error desconocido"; loading ends either way |
| UserListViewModel.Init | app/src/main/java/com/example/desafiogalicia/presentation/screens/userlist/UserListViewModel.kt:23-30 | construction starts an unfiltered load of page 1 with size 10; the published state is the default one with only `isLoading` set, and the private counter is 1 |
| UserListViewModel.GoToNextPage | app/src/main/java/com/example/desafiogalicia/presentation/screens/userlist/UserListViewModel.kt:86-91 | acts only with `hasNextPage` and nothing loading, then raises the counter by exactly 1 and loads that page under the recorded query, with loading set, the error cleared and the rest of the screen kept; otherwise nothing changes |
| UserListViewModel.GoToPreviousPage | app/src/main/java/com/example/desafiogalicia/presentation/screens/userlist/UserListViewModel.kt:93-98 | acts only with `hasPreviousPage` and nothing loading, then lowers the counter by exactly 1 and loads that page, with loading set, the error cleared and the rest of the screen kept; otherwise nothing changes |
| UserListViewModel.SearchUsers | app/src/main/java/com/example/desafiogalicia/presentation/screens/userlist/UserListViewModel.kt:100-103 | always records the raw query; when not loading it resets the counter to 1, sets both loading flags, clears the error, keeps the rest of the screen and requests page 1, size 10, with null for a blank query and the query itself otherwise; when loading only the query changes |
| UserListViewModel.RefreshUsers | app/src/main/java/com/example/desafiogalicia/presentation/screens/userlist/UserListViewModel.kt:126-128 | when not loading, resets the counter to 1, sets both loading flags, clears the error, keeps the rest of the screen and requests page 1, size 10 with the recorded query; when loading, nothing changes |
| UserListViewModel.ClearError | app/src/main/java/com/example/desafiogalicia/presentation/screens/userlist/UserListViewModel.kt:130-132 | the error becomes null and no other field changes |
| UserListViewModel.Uuids | app/src/main/java/com/example/desafiogalicia/presentation/screens/userlist/UserListViewModel.kt:35 | the set holds exactly the uuids of the emitted rows |
| UserListViewModel.FavoritesArrived | app/src/main/java/com/example/desafiogalicia/presentation/screens/userlist/UserListViewModel.kt:32-39 | a snapshot replaces `favoriteUsers` by the set of its uuids and changes no other field |
| UserListViewModel.ToggleFavorite | app/src/main/java/com/example/desafiogalicia/presentation/screens/userlist/UserListViewModel.kt:105-122 | asks the table: removes a present user, adds an absent one, so membership flips and the screen state is untouched; on an exception the table is unchanged and only the error is set, to the message or "Error al actualizar favoritos" |
| UserListViewModel.LoadWhileLoadingIsDropped | app/src/main/java/com/example/desafiogalicia/presentation/screens/userlist/UserListViewModel.kt:41-42 | with a load in flight, `loadUsers`, next, previous and refresh change nothing and fetch nothing |
| UserListViewModel.ToggleIgnoresCachedFavourites | app/src/main/java/com/example/desafiogalicia/presentation/screens/userlist/UserListViewModel.kt:105-113 | the list toggle's effect on the table does not depend on `favoriteUsers` |
| UserListViewModel.ToggleTwice | app/src/main/java/com/example/desafiogalicia/presentation/screens/userlist/UserListViewModel.kt:105-113 | two successful list toggles restore membership, and restore the table exactly when the user was absent or stored as their mapped row |
| UserListViewModel.SnapshotOfTableShowsItsKeys | app/src/main/java/com/example/desafiogalicia/presentation/screens/userlist/UserListViewModel.kt:32-37 | a snapshot listing the table's rows makes `favoriteUsers` exactly the table's key set |
| UserListViewModel.NextThenPreviousReturns | app/src/main/java/com/example/desafiogalicia/presentation/screens/userlist/UserListViewModel.kt:86-98 | after next and a successful load, previous requests the page the counter held before, exactly when that page is at least 1 |
| UserListTraces.Launch | app/src/main/java/com/example/desafiogalicia/presentation/screens/userlist/UserListViewModel.kt:27-30 | a new screen waits on a load of page 1, size 10, unfiltered |
| UserListTraces.LaunchInStep | app/src/main/java/com/example/desafiogalicia/presentation/screens/userlist/UserListViewModel.kt:23-30 | a new screen satisfies the paging invariant |
| UserListTraces.ApplyKeepsConsistent | app/src/main/java/com/example/desafiogalicia/presentation/screens/userlist/UserListViewModel.kt:41-98 | every event, failures included, keeps `hasPreviousPage` iff page > 1, `hasNextPage` only over a full page, both loading flags equal, and a load in flight exactly while loading, for the counter's page |
| UserListTraces.RunKeepsConsistent | app/src/main/java/com/example/desafiogalicia/presentation/screens/userlist/UserListViewModel.kt:41-98 | the same holds after any sequence of events |
| UserListTraces.CompletionShowsRequestedPage | app/src/main/java/com/example/desafiogalicia/presentation/screens/userlist/UserListViewModel.kt:57-69 | a successful completion shows exactly the fetched rows on the page requested for that load, whatever ran in between |
| UserListTraces.ApplyKeepsInStep | app/src/main/java/com/example/desafiogalicia/presentation/screens/userlist/UserListViewModel.kt:86-98 | every event except a failed completion keeps the counter at least 1 and equal to the displayed page when idle |
| UserListTraces.RunKeepsInStep | app/src/main/java/com/example/desafiogalicia/presentation/screens/userlist/UserListViewModel.kt:62-98 | the same holds along any run whose loads all succeed |
| UserListTraces.SuccessfulRunsStayInStep | app/src/main/java/com/example/desafiogalicia/presentation/screens/userlist/UserListViewModel.kt:23-98 | from construction, while every load succeeds, the counter and the displayed page stay at least 1 and agree whenever nothing is loading |
| UserListTraces.FailedLoadsLetCounterDrift | app/src/main/java/com/example/desafiogalicia/presentation/screens/userlist/UserListViewModel.kt:74-98 | failed previous-page loads drift the counter to 0 while page 2 stays on screen; the next request is for page -1 and its success shows page -1 |
| UserDetailViewModel.BeginLoad | app/src/main/java/com/example/desafiogalicia/presentation/screens/userdetail/UserDetailViewModel.kt:22-24 | loading starts and the error is cleared, nothing else changes |
| UserDetailViewModel.FinishLoad | app/src/main/java/com/example/desafiogalicia/presentation/screens/userdetail/UserDetailViewModel.kt:26-39 | success sets the user and the table's answer as `isFavorite`; failure keeps user and flag and sets the message or "Error desconocido"; loading ends either way |
| UserDetailViewModel.LoadedDetailIsInSync | app/src/main/java/com/example/desafiogalicia/presentation/screens/userdetail/UserDetailViewModel.kt:22-32 | a load against an answering table shows the user, error-free, with a flag that agrees with the table |
| UserDetailViewModel.ToggleFavorite | app/src/main/java/com/example/desafiogalicia/presentation/screens/userdetail/UserDetailViewModel.kt:43-61 | decides from the cached flag: removes when true, adds when false, then flips the flag; on an exception the table and flag are unchanged and the error is the message or "Error al actualizar favoritos" |
| UserDetailViewModel.ClearError | app/src/main/java/com/example/desafiogalicia/presentation/screens/userdetail/UserDetailViewModel.kt:63-65 | the error becomes null and no other field changes |
| UserDetailViewModel.OtherStepsKeepSync | app/src/main/java/com/example/desafiogalicia/presentation/screens/userdetail/UserDetailViewModel.kt:22-65 | starting a load, clearing the error, a failed load and a failed toggle all keep a flag that agrees with the table in agreement |
| UserDetailViewModel.ToggleTwice | app/src/main/java/com/example/desafiogalicia/presentation/screens/userdetail/UserDetailViewModel.kt:46-53 | two successful toggles restore the screen state; they restore the table exactly when the flag agreed with it and any stored row is the user's mapped row |
| UserDetailViewModel.ToggleAndSync | app/src/main/java/com/example/desafiogalicia/presentation/screens/userdetail/UserDetailViewModel.kt:46-53 | a flag in sync stays in sync after a toggle; a stale flag is repaired without changing table membership |
| UserDetailViewModel.TogglesAgreeIffInSync | app/src/main/java/com/example/desafiogalicia/presentation/screens/userdetail/UserDetailViewModel.kt:46-51 | the list and detail toggles change the table identically exactly when the detail flag agrees with the table |

## Left out

- Coroutines, `StateFlow` publication, Hilt injection and lifecycle teardown are left out. Asynchrony appears only as separate start, complete and snapshot events.
- The table's `getAllFavorites` is a live `Flow`. The model describes one emission (`GetAllFavorites`) and delivers emissions to the list screen as `Snapshot` events with any rows. How stale a snapshot may be is not modelled.
- A toggle's read-then-write is one atomic step. Concurrent toggles of the same uuid between the read and the write (last write wins) are not modelled.
- A favourites-table call that throws is modelled as leaving the table unchanged, as a single SQL statement does.
- The remote service is a function parameter. Disjoint or reproducible pages are the service's behaviour, not this code's, and are not asserted.
- The `User` record's source file is not part of this model. Only `login.uuid`, `name.fullName`, `email`, `location.country` and `picture.large` are kept, as opaque strings.
- `isLastPage` is written but never read, and `totalPages` is never changed. They are carried along with no properties beyond being unchanged where the code leaves them.
- The Compose screens, navigation and the detail cache (a plain mutable map put/get) are left out. The caller's upper-casing of the query and date formatting are part of these.
- The Room database and Retrofit declarations are left out.
- Kotlin `Int` is modelled as unbounded `int`. Reaching 32-bit wrap-around would need about two billion page moves.
