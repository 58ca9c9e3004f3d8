/** The account records the order core reads: a user with a role and a
    live position (core/models.py), and a delivery address. */
module Accounts {
  import opened Common

  /** core/models.py ROLE_CHOICES */
  datatype Role = Client | Courier | RestaurantOwner | Admin

  /** A user as the views see it. The role never changes in the core; the
      courier location view writes the coordinates. */
  class User {
    const id: nat
    const role: Role
    var latitude: Option<real>
    var longitude: Option<real>

    constructor (id: nat, role: Role)
      ensures this.id == id && this.role == role
      ensures latitude == None && longitude == None
    {
      this.id := id;
      this.role := role;
      latitude := None;
      longitude := None;
    }
  }

  /** A saved delivery address of one user, with optional coordinates. */
  datatype Address = Address(
    id: nat,
    user: nat,
    fullAddress: string,
    latitude: Option<real>,
    longitude: Option<real>)

  /** Address.objects.get(id=address_id, user=user): the address exists and
      belongs to the user, otherwise "address not found". */
  function LookupAddress(addresses: map<nat, Address>, addressId: nat, user: nat): (r: Result<Address>)
    ensures r.Ok? <==> addressId in addresses && addresses[addressId].user == user
    ensures r.Ok? ==> r.value == addresses[addressId] && r.value.user == user
    ensures r.Err? ==> r.error == AddressNotFound
  {
    if addressId in addresses && addresses[addressId].user == user then Ok(addresses[addressId])
    else Err(AddressNotFound)
  }
}
