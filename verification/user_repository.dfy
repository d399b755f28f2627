/** `UserRepository`: the paged remote fetch with its per-nationality seed, and the favourites
    operations that sit on the `favorite_users` table. */
module UserRepository {
  import opened Wrappers
  import opened Text
  import opened Entities
  import Dao = FavoriteUserDao

  const BaseSeed: string := "challenge"

  /** The seed sent with every page request: shared by all pages of one nationality filter. */
  function Seed(nationality: Option<string>): (seed: string)
    ensures seed == BaseSeed <==> IsNullOrBlank(nationality)
    ensures !IsNullOrBlank(nationality) ==> seed == BaseSeed + "-" + nationality.value
  {
    if IsNullOrBlank(nationality) then BaseSeed else BaseSeed + "-" + nationality.value
  }

  /** Distinct filters get distinct seeds: a seed determines whether the filter was absent or
      blank, and otherwise which nationality it was. */
  lemma {:induction false} SeedInjective(a: Option<string>, b: Option<string>)
    requires Seed(a) == Seed(b)
    ensures IsNullOrBlank(a) <==> IsNullOrBlank(b)
    ensures !IsNullOrBlank(a) ==> a.value == b.value
  {
    if !IsNullOrBlank(a) {
      var prefix := BaseSeed + "-";
      assert Seed(a) == prefix + a.value;
      assert Seed(b) == prefix + b.value;
      assert a.value == Seed(a)[|prefix|..];
      assert b.value == Seed(b)[|prefix|..];
    }
  }

  /** Forwarding a query verbatim or as `ifBlank { null }` yields the same seed, so every page of
      one search session is requested under one seed even though the first request of a blank
      search sends null and later ones send the blank string. */
  lemma SeedIgnoresBlankForwarding(query: string)
    ensures Seed(Some(query)) == Seed(IfBlankNull(query))
  {
  }

  datatype Info = Info(seed: string, results: int, page: int, version: string)

  /** The decoded body of the remote call. */
  datatype UserResponse = UserResponse(results: seq<User>, info: Info)

  /** The query parameters of one `RandomUserApi.getUsers` call. */
  datatype ApiRequest = ApiRequest(results: int, page: int, nationality: Option<string>, seed: string)

  /** The remote service: each request either answers or throws. */
  type RandomUserApi = ApiRequest -> Result<UserResponse, Throwable>

  /** One `getUsers` call: the single request it sends and what it returns. */
  datatype Call = Call(sent: ApiRequest, result: Result<seq<User>, Throwable>)

  /** `getUsers(page, results, nationality)`: one remote request carrying the arguments unchanged
      plus the derived seed; the answer's `results` on success, the very exception on failure. */
  function GetUsers(api: RandomUserApi, page: int, results: int, nationality: Option<string>): (c: Call)
    ensures c.sent.page == page && c.sent.results == results && c.sent.nationality == nationality
    ensures c.sent.seed == Seed(nationality)
    ensures c.result.Success? <==> api(c.sent).Success?
    ensures c.result.Success? ==> c.result.value == api(c.sent).value.results
    ensures c.result.Failure? ==> c.result.error == api(c.sent).error
  {
    var sent := ApiRequest(results, page, nationality, Seed(nationality));
    match api(sent)
    case Success(response) => Call(sent, Success(response.results))
    case Failure(e) => Call(sent, Failure(e))
  }

  /** The favourite row built from a user by `addToFavorites`. */
  function ToFavoriteUser(u: User): (f: FavoriteUser)
    ensures f.uuid == u.login.uuid && f.fullName == u.name.fullName && f.email == u.email
    ensures f.country == u.location.country && f.pictureUrl == u.picture.large
  {
    FavoriteUser(u.login.uuid, u.name.fullName, u.email, u.location.country, u.picture.large)
  }

  /** `addToFavorites`: upserts exactly one row, the user's, and touches no other key. */
  function AddToFavorites(t: Dao.Table, u: User): (r: Dao.Table)
    ensures r.Keys == t.Keys + {u.login.uuid}
    ensures r[u.login.uuid] == ToFavoriteUser(u)
    ensures forall k :: k in t && k != u.login.uuid ==> r[k] == t[k]
    ensures Dao.Keyed(t) ==> Dao.Keyed(r)
  {
    Dao.InsertFavorite(t, ToFavoriteUser(u))
  }

  /** `removeFromFavorites`: deletes the row keyed `uuid`, if any, and nothing else. */
  function RemoveFromFavorites(t: Dao.Table, uuid: string): (r: Dao.Table)
    ensures r.Keys == t.Keys - {uuid}
    ensures forall k :: k in r ==> r[k] == t[k]
    ensures uuid !in t ==> r == t
  {
    Dao.DeleteFavoriteByUuid(t, uuid)
  }

  /** `isFavorite`: the table's membership answer. */
  function IsFavorite(t: Dao.Table, uuid: string): (b: bool)
    ensures b <==> uuid in t
  {
    Dao.IsFavorite(t, uuid)
  }

  /** Adding makes the user a favourite, removing makes them not one, whatever the table held. */
  lemma AddRemoveMembership(t: Dao.Table, u: User)
    ensures IsFavorite(AddToFavorites(t, u), u.login.uuid)
    ensures !IsFavorite(RemoveFromFavorites(t, u.login.uuid), u.login.uuid)
    ensures Dao.GetFavoriteByUuid(AddToFavorites(t, u), u.login.uuid) == Some(ToFavoriteUser(u))
  {
  }
}
