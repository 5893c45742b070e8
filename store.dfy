/**
 * The relational store the services share (the Prisma client): one table per
 * model, the rows' columns, and the invariants the services keep.
 *
 * Columns the services never set are left to the schema's default; where a
 * service reads such a column it is an `Option` here, with `None` standing
 * for that default.
 */
module Store {
  import opened Prelude
  import opened Tables

  datatype Role = CUSTOMER | PROVIDER | ADMIN

  /**
   * The `BookingStatus` enum of the `Booking` model. The schema is not part
   * of this model: PENDING, CONFIRMED, COMPLETED and CANCELLED are the values
   * the services use; ARRIVED and IN_PROGRESS are assumed, after the job
   * statuses of the provider side.
   */
  datatype BookingStatus = PENDING | CONFIRMED | ARRIVED | IN_PROGRESS | COMPLETED | CANCELLED

  /** `Booking.paymentStatus`; a new booking starts UNPAID. */
  datatype PaymentStatus = UNPAID | PAID | REFUNDED

  datatype User = User(phoneNumber: string, name: Option<string>, role: Option<Role>, status: Option<string>)

  /** The wallet of a user, with a ledger of `WalletLedger` entries. */
  datatype Wallet = Wallet(userId: Id, balance: int, createdAt: Time)
  datatype WalletLedger = WalletLedger(walletId: Id, entryType: string, amount: int, createdAt: Time)

  datatype ServiceItem = ServiceItem(name: string, price: int)

  datatype ServiceProvider = ServiceProvider(
    userId: Id, name: string, phoneNumber: string, status: string,
    kycStatus: Option<string>, city: Option<string>)
  datatype ProviderProfile = ProviderProfile(providerId: Id, services: seq<string>, experiences: seq<string>)
  datatype Availability = Availability(providerId: Id, isOnline: bool, lastSeen: Option<Time>)

  /** The wallet of a service provider, debited by payout requests. */
  datatype SpWallet = SpWallet(providerId: Id, balance: int)
  datatype Payout = Payout(spWalletId: Id, amount: int, status: string)

  /** A job as the provider side sees it. */
  datatype SpBooking = SpBooking(providerId: Option<Id>, status: string, startTime: Option<Time>, endTime: Option<Time>)
  datatype LocationPing = LocationPing(providerId: Id, bookingId: Id, latitude: real, longitude: real, createdAt: Time)

  datatype Booking = Booking(
    userId: Id, serviceId: Id, date: Time, totalAmount: int, status: BookingStatus,
    addressId: Id, bookingType: string, providerId: Option<Id>, paymentStatus: PaymentStatus,
    cancellationReason: Option<string>, cancelledAt: Option<Time>, createdAt: Time)

  /** A payment row belongs either to a `Booking` or to a `CustomerBooking`. */
  datatype PaymentTarget = ForBooking(bookingId: Id) | ForCustomerBooking(customerBookingId: Id)
  datatype Payment = Payment(target: PaymentTarget, amount: int, status: string, paymentMethod: string)

  datatype Customer = Customer(userId: Id, name: string, phoneNumber: string, status: string, trustScore: int)
  datatype CustomerWallet = CustomerWallet(customerId: Id)
  datatype CustomerProfile = CustomerProfile(customerId: Id, email: string, profile: string, preferences: seq<string>)
  datatype AddressFields = AddressFields(
    address: string, addressLabel: string, latitude: real, longitude: real,
    city: string, state: string, zipcode: string, country: string)
  datatype CustomerAddress = CustomerAddress(customerId: Id, fields: AddressFields)
  datatype ServiceCategory = ServiceCategory(name: string, active: bool)

  /** A booking as the customer side sees it. */
  datatype CustomerBooking = CustomerBooking(customerId: Id, providerId: Id, scheduledAt: Time, status: string, createdAt: Time)

  datatype KycRecord = KycRecord(userId: Id, status: string, createdAt: Time)
  datatype KycDocument = KycDocument(kycId: Id, documentType: string, fileUrl: string)
  datatype AuditLog = AuditLog(adminId: Id, action: string, details: string)
  datatype BookingOverride = BookingOverride(bookingId: Id, status: BookingStatus)

  // ---------------------------------------------------------------------------
  // Invariants

  /** `User.phoneNumber` is unique, which is what lets the services `findUnique` by it. */
  predicate PhonesUnique(users: Table<User>) {
    forall a, b :: a in users.rows && b in users.rows && users.rows[a].phoneNumber == users.rows[b].phoneNumber ==> a == b
  }

  function OfWallet(w: Id): (Id, WalletLedger) -> bool {
    (_, e: WalletLedger) => e.walletId == w
  }

  function EntryAmount(e: WalletLedger): int {
    e.amount
  }

  /** The sum of the amounts of the ledger entries of wallet `w`. */
  function LedgerTotal(ledger: Table<WalletLedger>, w: Id): int {
    Sum(ledger, OfWallet(w), EntryAmount)
  }

  /**
   * Every ledger entry belongs to an existing wallet, and every wallet's
   * balance is the sum of its ledger entries.
   */
  predicate LedgerBalanced(wallets: Table<Wallet>, ledger: Table<WalletLedger>) {
    && (forall e :: e in ledger.rows ==> ledger.rows[e].walletId in wallets.rows)
    && (forall w :: w in wallets.rows ==> wallets.rows[w].balance == LedgerTotal(ledger, w))
  }

  /** Some availability row of provider `k` is online. */
  predicate HasOnlineAvailability(availabilities: Table<Availability>, k: Id) {
    exists a :: a in availabilities.rows && availabilities.rows[a].providerId == k && availabilities.rows[a].isOnline
  }

  /** No provider wallet is overdrawn. */
  predicate SpWalletsSolvent(spWallets: Table<SpWallet>) {
    forall w :: w in spWallets.rows ==> spWallets.rows[w].balance >= 0
  }

  /** A wallet nobody has booked an entry against has a total of 0. */
  lemma LedgerTotalUnused(ledger: Table<WalletLedger>, w: Id)
    requires forall e :: e in ledger.rows ==> ledger.rows[e].walletId != w
    ensures LedgerTotal(ledger, w) == 0
  {
    SumNone(ledger, OfWallet(w), EntryAmount);
  }

  /** Appending an entry moves the total of its own wallet by its amount and no other total. */
  lemma LedgerTotalAppend(ledger: Table<WalletLedger>, e: WalletLedger, w: Id)
    ensures LedgerTotal(Insert(ledger, e).0, w) == LedgerTotal(ledger, w) + (if e.walletId == w then e.amount else 0)
  {
    SumInsert(ledger, e, OfWallet(w), EntryAmount);
  }

  /** Creating an empty wallet keeps every balance equal to its ledger total. */
  lemma OpenWalletKeepsBalance(wallets: Table<Wallet>, ledger: Table<WalletLedger>, u: Id, now: Time)
    requires LedgerBalanced(wallets, ledger)
    ensures LedgerBalanced(Insert(wallets, Wallet(u, 0, now)).0, ledger)
  {
    var (wallets', id) := Insert(wallets, Wallet(u, 0, now));
    LedgerTotalUnused(ledger, id);
  }

  /**
   * Crediting a wallet by `amount` together with appending one entry of that
   * amount to its ledger keeps every balance equal to its ledger total.
   */
  lemma CreditKeepsBalance(wallets: Table<Wallet>, ledger: Table<WalletLedger>, w: Id, kind: string, amount: int, now: Time)
    requires LedgerBalanced(wallets, ledger)
    requires w in wallets.rows
    ensures var credited := wallets.rows[w].(balance := wallets.rows[w].balance + amount);
      LedgerBalanced(Update(wallets, w, credited), Insert(ledger, WalletLedger(w, kind, amount, now)).0)
  {
    var entry := WalletLedger(w, kind, amount, now);
    forall v | v in wallets.rows
      ensures LedgerTotal(Insert(ledger, entry).0, v) == LedgerTotal(ledger, v) + (if v == w then amount else 0)
    {
      LedgerTotalAppend(ledger, entry, v);
    }
  }

  // ---------------------------------------------------------------------------
  // The store

  class Database {
    var users: Table<User>
    var wallets: Table<Wallet>
    var walletLedgers: Table<WalletLedger>
    var serviceItems: Table<ServiceItem>
    var serviceProviders: Table<ServiceProvider>
    var providerProfiles: Table<ProviderProfile>
    var availabilities: Table<Availability>
    var spWallets: Table<SpWallet>
    var payouts: Table<Payout>
    var spBookings: Table<SpBooking>
    var locationPings: Table<LocationPing>
    var bookings: Table<Booking>
    var payments: Table<Payment>
    var customers: Table<Customer>
    var customerWallets: Table<CustomerWallet>
    var customerProfiles: Table<CustomerProfile>
    var customerAddresses: Table<CustomerAddress>
    var serviceCategories: Table<ServiceCategory>
    var customerBookings: Table<CustomerBooking>
    var kycRecords: Table<KycRecord>
    var kycDocuments: Table<KycDocument>
    var auditLogs: Table<AuditLog>
    var bookingOverrides: Table<BookingOverride>

    ghost predicate Valid()
      reads this
    {
      && PhonesUnique(users)
      && LedgerBalanced(wallets, walletLedgers)
      && SpWalletsSolvent(spWallets)
    }

    /** An empty database. */
    constructor ()
      ensures Valid()
      ensures users.rows == map[] && wallets.rows == map[] && walletLedgers.rows == map[]
      ensures bookings.rows == map[] && spBookings.rows == map[] && customerBookings.rows == map[]
    {
      users := EmptyTable();
      wallets := EmptyTable();
      walletLedgers := EmptyTable();
      serviceItems := EmptyTable();
      serviceProviders := EmptyTable();
      providerProfiles := EmptyTable();
      availabilities := EmptyTable();
      spWallets := EmptyTable();
      payouts := EmptyTable();
      spBookings := EmptyTable();
      locationPings := EmptyTable();
      bookings := EmptyTable();
      payments := EmptyTable();
      customers := EmptyTable();
      customerWallets := EmptyTable();
      customerProfiles := EmptyTable();
      customerAddresses := EmptyTable();
      serviceCategories := EmptyTable();
      customerBookings := EmptyTable();
      kycRecords := EmptyTable();
      kycDocuments := EmptyTable();
      auditLogs := EmptyTable();
      bookingOverrides := EmptyTable();
    }
  }
}
