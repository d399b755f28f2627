/** Records the core passes around. */
module Entities {
  import opened Wrappers

  /** The remote user record. Its source file is not part of this model; only the fields the
      core reads are kept, and each is opaque (`name.fullName` is computed there). */
  datatype Login = Login(uuid: string)
  datatype Name = Name(fullName: string)
  datatype Location = Location(country: string)
  datatype Picture = Picture(large: string)
  datatype User = User(login: Login, name: Name, email: string, location: Location, picture: Picture)

  /** A caught exception: only its nullable `message` matters to the core. */
  datatype Throwable = Throwable(message: Option<string>)

  /** `e.message ?: fallback`. */
  function MessageOr(e: Throwable, fallback: string): (m: string)
    ensures e.message.Some? ==> m == e.message.value
    ensures e.message.None? ==> m == fallback
  {
    e.message.GetOr(fallback)
  }

  /** Row of the `favorite_users` table; `uuid` is the primary key. */
  datatype FavoriteUser = FavoriteUser(uuid: string, fullName: string, email: string, country: string, pictureUrl: string)
}
