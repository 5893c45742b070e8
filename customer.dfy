/**
 * The customer side: sign-up and login, the profile and saved addresses,
 * service discovery by city, and the customer's own bookings, payments and
 * ratings on `CustomerBooking` rows.
 */
module Customers {
  import opened Prelude
  import opened Tables
  import opened Store
  import opened Users

  /** The code every customer login is checked against. */
  const CustomerOtp := "1234"

  // ---------------------------------------------------------------------------
  // Sign-up and login

  function OfUserAccount(userId: Id): (Id, Customer) -> bool {
    (_, c: Customer) => c.userId == userId
  }

  /** The first customer of a user, if any. */
  function CustomerOfUser(customers: Table<Customer>, userId: Id): (r: Option<Id>)
    ensures r.Some? ==> r.value in customers.rows && customers.rows[r.value].userId == userId
    ensures r.Some? ==> forall k :: k in customers.rows && k < r.value ==> customers.rows[k].userId != userId
    ensures r.None? <==> forall k :: k in customers.rows ==> customers.rows[k].userId != userId
  {
    FindFirst(customers, OfUserAccount(userId))
  }

  /** The name a new customer gets: the one supplied, or "Guest" when it is missing or empty. */
  function NewCustomerName(name: Option<string>): string {
    if name.Some? && name.value != "" then name.value else "Guest"
  }

  /**
   * `verifyOtp`: a code other than the fixed one is refused; then the number
   * must belong to a user that has a customer, and the login is that customer.
   */
  function CustomerLogin(users: Table<User>, customers: Table<Customer>, phoneNumber: string, otp: string)
    : (r: Result<Id>)
    ensures r.Ok? <==>
      && otp == CustomerOtp
      && UserByPhone(users, phoneNumber).Some?
      && exists c :: c in customers.rows && customers.rows[c].userId == UserByPhone(users, phoneNumber).value
    ensures otp != CustomerOtp ==> r == Err(BadRequest("Invalid OTP"))
    ensures otp == CustomerOtp && r.Err? ==> r.error == NotFound("User not found")
    ensures r.Ok? ==> r.value in customers.rows
    ensures r.Ok? ==> customers.rows[r.value].userId == UserByPhone(users, phoneNumber).value
  {
    if otp != CustomerOtp then Err(BadRequest("Invalid OTP"))
    else
      var user := UserByPhone(users, phoneNumber);
      if user.None? then Err(NotFound("User not found"))
      else
        var customer := CustomerOfUser(customers, user.value);
        if customer.None? then Err(NotFound("User not found"))
        else Ok(customer.value)
  }

  // ---------------------------------------------------------------------------
  // Profile and addresses

  function ProfileOfCustomer(customerId: Id): (Id, CustomerProfile) -> bool {
    (_, p: CustomerProfile) => p.customerId == customerId
  }

  /** The customer's first profile row, if any. */
  function ProfileOf(profiles: Table<CustomerProfile>, customerId: Id): (r: Option<Id>)
    ensures r.Some? ==> r.value in profiles.rows && profiles.rows[r.value].customerId == customerId
    ensures r.Some? ==> forall k :: k in profiles.rows && k < r.value ==> profiles.rows[k].customerId != customerId
    ensures r.None? <==> forall k :: k in profiles.rows ==> profiles.rows[k].customerId != customerId
  {
    FindFirst(profiles, ProfileOfCustomer(customerId))
  }

  /** A profile with each supplied field replaced; a field that is not supplied keeps its value. */
  function PatchProfile(p: CustomerProfile, email: Option<string>, profile: Option<string>, preferences: Option<seq<string>>)
    : CustomerProfile
  {
    p.(email := if email.Some? then email.value else p.email,
       profile := if profile.Some? then profile.value else p.profile,
       preferences := if preferences.Some? then preferences.value else p.preferences)
  }

  /** The profile a customer without one is given: empty fields, patched with what was supplied. */
  function NewProfile(customerId: Id, email: Option<string>, profile: Option<string>, preferences: Option<seq<string>>)
    : CustomerProfile
  {
    PatchProfile(CustomerProfile(customerId, "", "", []), email, profile, preferences)
  }

  /** Address `addressId` exists and belongs to customer `customerId`. */
  predicate OwnsAddress(addresses: Table<CustomerAddress>, customerId: Id, addressId: Id) {
    addressId in addresses.rows && addresses.rows[addressId].customerId == customerId
  }

  // ---------------------------------------------------------------------------
  // Service discovery

  /**
   * Provider `k` can serve customers in `city`: it is located there, has
   * finished onboarding, its KYC is approved and it is online.
   */
  predicate ServesIn(providers: Table<ServiceProvider>, availabilities: Table<Availability>, city: string, k: Id) {
    && k in providers.rows
    && providers.rows[k].city == Some(city)
    && providers.rows[k].status == "ONBOARDING_COMPLETED"
    && providers.rows[k].kycStatus == Some("APPROVED")
    && HasOnlineAvailability(availabilities, k)
  }

  predicate NoDuplicates(s: seq<string>) {
    forall i, j :: 0 <= i < j < |s| ==> s[i] != s[j]
  }

  /** `acc` extended by the elements of `names` it does not hold yet, first occurrence first. */
  function AddNew(acc: seq<string>, names: seq<string>): (r: seq<string>)
    requires NoDuplicates(acc)
    ensures NoDuplicates(r)
    ensures forall x :: x in r <==> x in acc || x in names
    decreases |names|
  {
    if names == [] then acc
    else AddNew(if names[0] in acc then acc else acc + [names[0]], names[1..])
  }

  /**
   * The distinct service names listed by the profiles with an id below `n`
   * whose provider serves `city`.
   */
  function OfferedBelow(profiles: map<Id, ProviderProfile>, providers: Table<ServiceProvider>,
                        availabilities: Table<Availability>, city: string, n: nat): (names: seq<string>)
    ensures NoDuplicates(names)
    ensures forall s :: s in names <==>
      exists j :: j < n && j in profiles && ServesIn(providers, availabilities, city, profiles[j].providerId)
        && s in profiles[j].services
  {
    if n == 0 then []
    else
      var before := OfferedBelow(profiles, providers, availabilities, city, n - 1);
      var j := n - 1;
      if j in profiles && ServesIn(providers, availabilities, city, profiles[j].providerId) then
        var names := AddNew(before, profiles[j].services);
        assert forall s :: s in profiles[j].services ==> s in names;
        names
      else
        before
  }

  /** The distinct service names offered in `city`. */
  function OfferedIn(profiles: Table<ProviderProfile>, providers: Table<ServiceProvider>,
                     availabilities: Table<Availability>, city: string): (names: seq<string>)
    ensures NoDuplicates(names)
    ensures forall s :: s in names <==>
      exists j :: j in profiles.rows && ServesIn(providers, availabilities, city, profiles.rows[j].providerId)
        && s in profiles.rows[j].services
  {
    OfferedBelow(profiles.rows, providers, availabilities, city, profiles.next)
  }

  function IsActive(): (Id, ServiceCategory) -> bool {
    (_, c: ServiceCategory) => c.active
  }

  function ActiveAmong(names: seq<string>): (Id, ServiceCategory) -> bool {
    (_, c: ServiceCategory) => c.active && c.name in names
  }

  /**
   * `getCategories`: without a city, every active category; with one, the
   * active categories named by a service some provider serving that city offers.
   */
  function GetCategories(categories: Table<ServiceCategory>, profiles: Table<ProviderProfile>,
                         providers: Table<ServiceProvider>, availabilities: Table<Availability>,
                         city: Option<string>): (ids: seq<Id>)
    ensures Increasing(ids)
    ensures city.None? || city.value == "" ==>
      forall k :: k in ids <==> k in categories.rows && categories.rows[k].active
    ensures city.Some? && city.value != "" ==>
      forall k :: k in ids <==>
        && k in categories.rows
        && categories.rows[k].active
        && exists j :: j in profiles.rows && ServesIn(providers, availabilities, city.value, profiles.rows[j].providerId)
             && categories.rows[k].name in profiles.rows[j].services
  {
    if city.None? || city.value == "" then Select(categories, IsActive())
    else Select(categories, ActiveAmong(OfferedIn(profiles, providers, availabilities, city.value)))
  }

  /** Naming a city only ever narrows the categories shown. */
  lemma CityNarrowsCategories(categories: Table<ServiceCategory>, profiles: Table<ProviderProfile>,
                              providers: Table<ServiceProvider>, availabilities: Table<Availability>,
                              city: string, k: Id)
    requires k in GetCategories(categories, profiles, providers, availabilities, Some(city))
    ensures k in GetCategories(categories, profiles, providers, availabilities, None)
  {
  }

  /** A category offered by a provider serving the city is shown for that city, if active. */
  lemma OfferedCategoryShown(categories: Table<ServiceCategory>, profiles: Table<ProviderProfile>,
                             providers: Table<ServiceProvider>, availabilities: Table<Availability>,
                             city: string, k: Id, j: Id)
    requires city != ""
    requires k in categories.rows && categories.rows[k].active
    requires j in profiles.rows && ServesIn(providers, availabilities, city, profiles.rows[j].providerId)
    requires categories.rows[k].name in profiles.rows[j].services
    ensures k in GetCategories(categories, profiles, providers, availabilities, Some(city))
  {
  }

  // ---------------------------------------------------------------------------
  // Bookings and ratings

  /** `rateProvider`: only a COMPLETED booking can be rated; the rating itself changes nothing. */
  function RateProvider(bookings: Table<CustomerBooking>, providers: Table<ServiceProvider>, bookingId: Id)
    : (r: Result<string>)
    ensures r.Err? <==> bookingId !in bookings.rows || bookings.rows[bookingId].status != "COMPLETED"
    ensures bookingId !in bookings.rows ==> r == Err(NotFound("Booking not found"))
    ensures bookingId in bookings.rows && r.Err? ==> r.error == BadRequest("Can only rate completed bookings")
    ensures r.Ok? ==>
      (r.value == "Rating submitted" <==> bookings.rows[bookingId].providerId in providers.rows)
    ensures r.Ok? ==> r.value == "Rating submitted" || r.value == "Rating submitted (mock)"
  {
    if bookingId !in bookings.rows then Err(NotFound("Booking not found"))
    else if bookings.rows[bookingId].status != "COMPLETED" then Err(BadRequest("Can only rate completed bookings"))
    else if bookings.rows[bookingId].providerId in providers.rows then Ok("Rating submitted")
    else Ok("Rating submitted (mock)")
  }

  /** Booking `bookingId` exists and belongs to customer `customerId`. */
  predicate OwnsBooking(bookings: Table<CustomerBooking>, customerId: Id, bookingId: Id) {
    bookingId in bookings.rows && bookings.rows[bookingId].customerId == customerId
  }

  /** A booking in a final state: it can no longer be cancelled. */
  predicate Settled(b: CustomerBooking) {
    b.status == "COMPLETED" || b.status == "CANCELLED"
  }

  class CustomerService {
    const db: Database

    constructor (db: Database)
      ensures this.db == db
    {
      this.db := db;
    }

    /** Creates the customer `u` with an empty wallet. */
    method CreateCustomer(u: Id, name: string, phoneNumber: string) returns (c: Id)
      modifies db`customers, db`customerWallets
      ensures (db.customers, c) == Insert(old(db.customers), Customer(u, name, phoneNumber, "ACTIVE", 100))
      ensures db.customerWallets == Insert(old(db.customerWallets), CustomerWallet(c)).0
      ensures old(CustomerOfUser(db.customers, u)).None? ==> CustomerOfUser(db.customers, u) == Some(c)
    {
      var (customers', id) := Insert(db.customers, Customer(u, name, phoneNumber, "ACTIVE", 100));
      db.customers, c := customers', id;
      db.customerWallets := Insert(db.customerWallets, CustomerWallet(c)).0;
    }

    /**
     * `register`: finds or creates the ACTIVE CUSTOMER user with that number,
     * then finds or creates its customer; only a new customer gets a wallet.
     * The returned customer is the one a login with that number reaches.
     */
    method Register(phoneNumber: string, name: Option<string>) returns (customerId: Id)
      requires db.Valid()
      modifies db`users, db`customers, db`customerWallets
      ensures db.Valid()
      ensures CustomerLogin(db.users, db.customers, phoneNumber, CustomerOtp) == Ok(customerId)
      ensures old(UserByPhone(db.users, phoneNumber)).Some? ==> db.users == old(db.users)
      ensures old(UserByPhone(db.users, phoneNumber)).None? ==>
        db.users == Insert(old(db.users), User(phoneNumber, name, Some(CUSTOMER), Some("ACTIVE"))).0
      ensures var u := UserByPhone(db.users, phoneNumber).value;
        old(CustomerOfUser(db.customers, u)).Some? ==>
          && customerId == old(CustomerOfUser(db.customers, u)).value
          && db.customers == old(db.customers)
          && db.customerWallets == old(db.customerWallets)
      ensures var u := UserByPhone(db.users, phoneNumber).value;
        old(CustomerOfUser(db.customers, u)).None? ==>
          && (db.customers, customerId) == Insert(old(db.customers), Customer(u, NewCustomerName(name), phoneNumber, "ACTIVE", 100))
          && db.customerWallets == Insert(old(db.customerWallets), CustomerWallet(customerId)).0
    {
      var u := FindOrCreateUser(db, User(phoneNumber, name, Some(CUSTOMER), Some("ACTIVE")));
      var existing := CustomerOfUser(db.customers, u);
      if existing.Some? {
        return existing.value;
      }
      customerId := CreateCustomer(u, NewCustomerName(name), phoneNumber);
    }

    /**
     * `updateProfile`: renames the customer when a non-empty name is given,
     * then patches its first profile, or creates one when it has none.
     */
    method UpdateProfile(customerId: Id, name: Option<string>, email: Option<string>, profile: Option<string>,
                         preferences: Option<seq<string>>) returns (r: Result<()>)
      modifies db`customers, db`customerProfiles
      ensures r.Err? <==> customerId !in old(db.customers.rows)
      ensures r.Err? ==> r.error == NotFound("Customer not found")
      ensures r.Err? ==> db.customers == old(db.customers) && db.customerProfiles == old(db.customerProfiles)
      ensures r.Ok? && name.Some? && name.value != "" ==>
        db.customers == Update(old(db.customers), customerId, old(db.customers.rows[customerId]).(name := name.value))
      ensures r.Ok? && (name.None? || name.value == "") ==> db.customers == old(db.customers)
      ensures r.Ok? ==> var p := old(ProfileOf(db.customerProfiles, customerId));
        p.Some? ==>
          db.customerProfiles == Update(old(db.customerProfiles), p.value, PatchProfile(old(db.customerProfiles.rows[p.value]), email, profile, preferences))
      ensures r.Ok? ==> var p := old(ProfileOf(db.customerProfiles, customerId));
        p.None? ==>
          db.customerProfiles == Insert(old(db.customerProfiles), NewProfile(customerId, email, profile, preferences)).0
    {
      if customerId !in db.customers.rows {
        return Err(NotFound("Customer not found"));
      }
      if name.Some? && name.value != "" {
        db.customers := Update(db.customers, customerId, db.customers.rows[customerId].(name := name.value));
      }
      var p := ProfileOf(db.customerProfiles, customerId);
      if p.Some? {
        var patched := PatchProfile(db.customerProfiles.rows[p.value], email, profile, preferences);
        db.customerProfiles := Update(db.customerProfiles, p.value, patched);
      } else {
        db.customerProfiles := Insert(db.customerProfiles, NewProfile(customerId, email, profile, preferences)).0;
      }
      return Ok(());
    }

    /** `addAddress`: stores a new address for the customer. */
    method AddAddress(customerId: Id, fields: AddressFields) returns (addressId: Id)
      modifies db`customerAddresses
      ensures (db.customerAddresses, addressId) == Insert(old(db.customerAddresses), CustomerAddress(customerId, fields))
      ensures OwnsAddress(db.customerAddresses, customerId, addressId)
    {
      var (addresses', id) := Insert(db.customerAddresses, CustomerAddress(customerId, fields));
      db.customerAddresses, addressId := addresses', id;
    }

    /** `updateAddress`: replaces the fields of one of the customer's own addresses. */
    method UpdateAddress(customerId: Id, addressId: Id, fields: AddressFields) returns (r: Result<()>)
      modifies db`customerAddresses
      ensures r.Ok? <==> old(OwnsAddress(db.customerAddresses, customerId, addressId))
      ensures r.Err? ==> r.error == NotFound("Address not found") && db.customerAddresses == old(db.customerAddresses)
      ensures r.Ok? ==> db.customerAddresses == Update(old(db.customerAddresses), addressId, CustomerAddress(customerId, fields))
      ensures db.customerAddresses.rows.Keys == old(db.customerAddresses.rows.Keys)
      ensures forall k :: k in old(db.customerAddresses.rows) && k != addressId ==>
        db.customerAddresses.rows[k] == old(db.customerAddresses.rows[k])
    {
      if !OwnsAddress(db.customerAddresses, customerId, addressId) {
        return Err(NotFound("Address not found"));
      }
      db.customerAddresses := Update(db.customerAddresses, addressId, CustomerAddress(customerId, fields));
      return Ok(());
    }

    /** `deleteAddress`: removes one of the customer's own addresses. */
    method DeleteAddress(customerId: Id, addressId: Id) returns (r: Result<()>)
      modifies db`customerAddresses
      ensures r.Ok? <==> old(OwnsAddress(db.customerAddresses, customerId, addressId))
      ensures r.Err? ==> r.error == NotFound("Address not found") && db.customerAddresses == old(db.customerAddresses)
      ensures r.Ok? ==> db.customerAddresses == Remove(old(db.customerAddresses), addressId)
      ensures forall k :: k in old(db.customerAddresses.rows) && k != addressId ==>
        k in db.customerAddresses.rows && db.customerAddresses.rows[k] == old(db.customerAddresses.rows[k])
    {
      if !OwnsAddress(db.customerAddresses, customerId, addressId) {
        return Err(NotFound("Address not found"));
      }
      db.customerAddresses := Remove(db.customerAddresses, addressId);
      return Ok(());
    }

    /** `deactivateAccount`: marks the customer DEACTIVATED; an unknown id is the database's error. */
    method DeactivateAccount(customerId: Id) returns (r: Result<()>)
      modifies db`customers
      ensures r.Err? <==> customerId !in old(db.customers.rows)
      ensures r.Err? ==> r.error == RecordNotFound && db.customers == old(db.customers)
      ensures r.Ok? ==>
        db.customers == Update(old(db.customers), customerId, old(db.customers.rows[customerId]).(status := "DEACTIVATED"))
    {
      if customerId !in db.customers.rows {
        return Err(RecordNotFound);
      }
      db.customers := Update(db.customers, customerId, db.customers.rows[customerId].(status := "DEACTIVATED"));
      return Ok(());
    }

    /** `createBooking`: a PENDING booking with the chosen provider; a provider must be chosen. */
    method CreateBooking(customerId: Id, providerId: Option<Id>, scheduledAt: Time, now: Time) returns (r: Result<Id>)
      modifies db`customerBookings
      ensures r.Err? <==> providerId.None?
      ensures r.Err? ==> r.error == BadRequest("Provider ID required") && db.customerBookings == old(db.customerBookings)
      ensures r.Ok? ==>
        (db.customerBookings, r.value) == Insert(old(db.customerBookings), CustomerBooking(customerId, providerId.value, scheduledAt, "PENDING", now))
      ensures r.Ok? ==> OwnsBooking(db.customerBookings, customerId, r.value) && !Settled(db.customerBookings.rows[r.value])
    {
      if providerId.None? {
        return Err(BadRequest("Provider ID required"));
      }
      var (bookings', id) := Insert(db.customerBookings, CustomerBooking(customerId, providerId.value, scheduledAt, "PENDING", now));
      db.customerBookings := bookings';
      return Ok(id);
    }

    /**
     * `cancelBooking`: the customer's own booking becomes CANCELLED unless it
     * is already COMPLETED or CANCELLED.
     */
    method CancelBooking(customerId: Id, bookingId: Id) returns (r: Result<()>)
      modifies db`customerBookings
      ensures r.Ok? <==>
        old(OwnsBooking(db.customerBookings, customerId, bookingId)) && !old(Settled(db.customerBookings.rows[bookingId]))
      ensures !old(OwnsBooking(db.customerBookings, customerId, bookingId)) ==> r == Err(NotFound("Booking not found"))
      ensures old(OwnsBooking(db.customerBookings, customerId, bookingId)) && r.Err? ==>
        r.error == BadRequest("Cannot cancel completed or already cancelled booking")
      ensures r.Err? ==> db.customerBookings == old(db.customerBookings)
      ensures r.Ok? ==>
        db.customerBookings == Update(old(db.customerBookings), bookingId, old(db.customerBookings.rows[bookingId]).(status := "CANCELLED"))
    {
      if !OwnsBooking(db.customerBookings, customerId, bookingId) {
        return Err(NotFound("Booking not found"));
      }
      var b := db.customerBookings.rows[bookingId];
      if Settled(b) {
        return Err(BadRequest("Cannot cancel completed or already cancelled booking"));
      }
      db.customerBookings := Update(db.customerBookings, bookingId, b.(status := "CANCELLED"));
      return Ok(());
    }

    /**
     * `initiatePayment`: records a COMPLETED payment against an existing
     * booking; whose booking it is is not checked.
     */
    method InitiatePayment(customerId: Id, bookingId: Id, amount: int, paymentMethod: string) returns (r: Result<Id>)
      modifies db`payments
      ensures r.Err? <==> bookingId !in db.customerBookings.rows
      ensures r.Err? ==> r.error == NotFound("Booking not found") && db.payments == old(db.payments)
      ensures r.Ok? ==>
        (db.payments, r.value) == Insert(old(db.payments), Payment(ForCustomerBooking(bookingId), amount, "COMPLETED", paymentMethod))
    {
      if bookingId !in db.customerBookings.rows {
        return Err(NotFound("Booking not found"));
      }
      var (payments', id) := Insert(db.payments, Payment(ForCustomerBooking(bookingId), amount, "COMPLETED", paymentMethod));
      db.payments := payments';
      return Ok(id);
    }
  }

  /** Registering the same number twice yields the same customer, and the second time creates nothing. */
  method RegisterTwice(service: CustomerService, phoneNumber: string, name: Option<string>, name2: Option<string>)
    returns (first: Id, second: Id)
    requires service.db.Valid()
    modifies service.db`users, service.db`customers, service.db`customerWallets
    ensures service.db.Valid()
    ensures first == second
  {
    first := service.Register(phoneNumber, name);
    ghost var users := service.db.users;
    ghost var customers := service.db.customers;
    ghost var wallets := service.db.customerWallets;
    second := service.Register(phoneNumber, name2);
    assert service.db.users == users && service.db.customers == customers && service.db.customerWallets == wallets;
  }

  /** A cancelled booking cannot be cancelled again. */
  method CancelTwice(service: CustomerService, customerId: Id, bookingId: Id) returns (first: Result<()>, second: Result<()>)
    modifies service.db`customerBookings
    ensures first.Ok? ==> second == Err(BadRequest("Cannot cancel completed or already cancelled booking"))
    ensures first.Err? ==> second == first
  {
    first := service.CancelBooking(customerId, bookingId);
    second := service.CancelBooking(customerId, bookingId);
  }
}
