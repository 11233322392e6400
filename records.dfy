/**
 * The entities the listings client handles: sessions, property records as the
 * `properties` table returns them, favorite edges, the row written when a
 * landlord saves a property, and the device's stored role.
 */
module Records {
  import opened Results

  type UserId = string
  type PropertyId = int

  /** The authenticated user a session belongs to. */
  datatype User = User(id: UserId, email: string)

  /** An authentication session issued by the backend: a token and its user. */
  datatype Session = Session(accessToken: string, user: User)

  /** The role names the client stores and compares against. */
  const TenantRole := "tenant"
  const LandlordRole := "landlord"

  /** The page names the client routes between. */
  const ListingsPage := "listings"
  const FavoritesPage := "favorites"
  const AddPage := "add"

  /** JavaScript truthiness of an optional string: present and not empty. */
  predicate Truthy(s: Option<string>) {
    s.Some? && s.value != ""
  }

  /**
   * `localStorage.getItem('userType') || 'tenant'`: the stored role when one is
   * stored and not empty, `tenant` otherwise.
   */
  function StoredRoleOrTenant(stored: Option<string>): (role: string)
    ensures role != ""
    ensures Truthy(stored) ==> role == stored.value
    ensures !Truthy(stored) ==> role == TenantRole
  {
    if Truthy(stored) then stored.value else TenantRole
  }

  /**
   * A row of the `properties` table; every column the backend may leave null is
   * optional. Numbers (price, rooms, area, coordinates) are integers here.
   */
  datatype Property = Property(
    id: PropertyId,
    title: Option<string>,
    propertyType: Option<string>,
    price: Option<int>,
    bedrooms: Option<int>,
    bathrooms: Option<int>,
    area: Option<int>,
    location: Option<string>,
    phone: Option<string>,
    email: Option<string>,
    description: Option<string>,
    amenities: Option<string>,
    latitude: Option<int>,
    longitude: Option<int>,
    fullAddress: Option<string>,
    imageUrl: Option<string>,
    imagePath: Option<string>,
    ownerId: Option<UserId>,
    landlord: Option<string>)

  /** A row of the `favorites` query, which selects only the property id. */
  datatype FavoriteRow = FavoriteRow(propertyId: PropertyId)

  /** A row written to the `favorites` table. */
  datatype FavoriteEdge = FavoriteEdge(userId: UserId, propertyId: PropertyId, userType: string)

  /** A local file the landlord picked for upload. */
  datatype LocalFile = LocalFile(name: string)

  /**
   * The row the landlord form sends on insert or update: every draft key
   * (text kept as typed, including the draft's own `imageUrl` key), the numeric
   * keys replaced by their coerced values, and the owner and image columns.
   * A coerced number that is `None` is sent as null.
   */
  datatype PropertyData = PropertyData(
    title: string,
    location: string,
    price: Option<int>,
    propertyType: string,
    bedrooms: Option<int>,
    bathrooms: Option<int>,
    area: Option<int>,
    description: string,
    phone: string,
    email: string,
    amenities: string,
    latitude: Option<int>,
    longitude: Option<int>,
    fullAddress: string,
    draftImageUrl: string,
    ownerId: UserId,
    landlord: string,
    imageUrl: string,
    imagePath: Option<string>)

  /** Every request the client issues to the backend: auth, table access and blob storage. */
  datatype Call =
    | SignUp(email: string, password: string, userType: string)
    | SignInWithPassword(email: string, password: string)
    | SignOut
    | SelectProperties(ownerFilter: Option<UserId>)
    | SelectFavoriteIds(userId: UserId)
    | InsertFavorite(edge: FavoriteEdge)
    | DeleteFavorite(userId: UserId, propertyId: PropertyId)
    | InsertProperty(data: PropertyData)
    | UpdateProperty(data: PropertyData, id: PropertyId, ownerId: UserId)
    | DeletePropertyRow(id: PropertyId, ownerId: UserId)
    | UploadImage(key: string, file: LocalFile)
    | RemoveImages(keys: seq<string>)

  /** The device's `localStorage`, of which the client uses the single key `userType`. */
  class DeviceStorage {
    var userType: Option<string>

    constructor (stored: Option<string>)
      ensures userType == stored
    {
      userType := stored;
    }

    /** `localStorage.setItem('userType', role)`. */
    method SetUserType(role: string)
      modifies this
      ensures userType == Some(role)
    {
      userType := Some(role);
    }

    /** `localStorage.removeItem('userType')`. */
    method RemoveUserType()
      modifies this
      ensures userType == None
    {
      userType := None;
    }
  }
}
