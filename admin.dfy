/**
 * The back office: status overrides on users, KYC records and bookings, each
 * followed by an audit trail whose failure is swallowed; the KYC queue, the
 * wallet ledger view and the dashboard figures.
 */
module Admin {
  import opened Prelude
  import opened Tables
  import opened Store
  import opened Users

  // ---------------------------------------------------------------------------
  // Read-only views

  function KycIsPending(): (Id, KycRecord) -> bool {
    (_, r: KycRecord) => r.status == "PENDING"
  }

  function KycCreatedAt(r: KycRecord): Time {
    r.createdAt
  }

  /** `getPendingKyc`: every PENDING KYC record, each with its id, oldest first. */
  function GetPendingKyc(kycRecords: Table<KycRecord>): (rs: seq<(Id, KycRecord)>)
    ensures Lists(kycRecords, KycIsPending(), rs)
    ensures forall i, j :: 0 <= i < j < |rs| ==> rs[i].1.createdAt <= rs[j].1.createdAt
  {
    OldestFirst(kycRecords, KycIsPending(), KycCreatedAt)
  }

  /** `getWalletLedger`: an unknown wallet is refused; otherwise its ledger, newest first. */
  function GetWalletLedger(wallets: Table<Wallet>, ledger: Table<WalletLedger>, walletId: Id)
    : (r: Result<seq<(Id, WalletLedger)>>)
    ensures r.Err? <==> walletId !in wallets.rows
    ensures r.Err? ==> r.error == NotFound("Wallet not found")
    ensures r.Ok? ==> Lists(ledger, OfWallet(walletId), r.value)
    ensures r.Ok? ==> forall i, j :: 0 <= i < j < |r.value| ==> r.value[i].1.createdAt >= r.value[j].1.createdAt
  {
    if walletId !in wallets.rows then Err(NotFound("Wallet not found"))
    else Ok(LedgerNewestFirst(ledger, walletId))
  }

  /** In a balanced store, the entries the ledger view lists add up to the wallet's balance. */
  lemma LedgerViewSumsToBalance(wallets: Table<Wallet>, ledger: Table<WalletLedger>, walletId: Id)
    requires LedgerBalanced(wallets, ledger)
    requires walletId in wallets.rows
    ensures GetWalletLedger(wallets, ledger, walletId).Ok?
    ensures SumOf(GetWalletLedger(wallets, ledger, walletId).value, EntryAmount) == wallets.rows[walletId].balance
  {
    ListedSum(ledger, OfWallet(walletId), EntryAmount, GetWalletLedger(wallets, ledger, walletId).value);
  }

  datatype DashboardStats = DashboardStats(
    totalUsers: nat, activeUsers: nat, totalBookings: nat, pendingBookings: nat, totalRevenue: int)

  function AnyUser(): (Id, User) -> bool {
    (_, u: User) => true
  }

  /**
   * The user's status, with `defaultStatus` standing for the schema default
   * of a user whose status was never set.
   */
  function UserStatus(u: User, defaultStatus: string): string {
    if u.status.Some? then u.status.value else defaultStatus
  }

  function UserIsActive(defaultStatus: string): (Id, User) -> bool {
    (_, u: User) => UserStatus(u, defaultStatus) == "ACTIVE"
  }

  function AnyBooking(): (Id, Booking) -> bool {
    (_, b: Booking) => true
  }

  function BookingIsPending(): (Id, Booking) -> bool {
    (_, b: Booking) => b.status == PENDING
  }

  function TotalAmount(b: Booking): int {
    b.totalAmount
  }

  /** The sum of `totalAmount` over every booking, whatever its status. */
  function Revenue(bookings: Table<Booking>): int {
    Sum(bookings, AnyBooking(), TotalAmount)
  }

  /**
   * `getDashboardStats`: how many users and bookings there are, how many of
   * them are ACTIVE and PENDING, and the revenue (0 without bookings).
   */
  function GetDashboardStats(users: Table<User>, bookings: Table<Booking>, defaultStatus: string): (s: DashboardStats)
    ensures s.totalUsers == |users.rows|
    ensures s.activeUsers == |Matching(users, UserIsActive(defaultStatus))|
    ensures s.totalBookings == |bookings.rows|
    ensures s.pendingBookings == |Matching(bookings, BookingIsPending())|
    ensures s.activeUsers <= s.totalUsers && s.pendingBookings <= s.totalBookings
    ensures s.totalRevenue == Revenue(bookings)
    ensures bookings.rows == map[] ==> s.totalRevenue == 0
  {
    CountAll(users, AnyUser());
    CountAll(bookings, AnyBooking());
    CountAtMost(users, UserIsActive(defaultStatus));
    CountAtMost(bookings, BookingIsPending());
    var stats := DashboardStats(
      Count(users, AnyUser()), Count(users, UserIsActive(defaultStatus)),
      Count(bookings, AnyBooking()), Count(bookings, BookingIsPending()),
      Revenue(bookings));
    if bookings.rows == map[] then
      SumNone(bookings, AnyBooking(), TotalAmount);
      stats
    else
      stats
  }

  /**
   * Revenue counts bookings whatever their status: a status change, such as
   * a cancellation, leaves it where it was.
   */
  lemma RevenueIgnoresStatus(users: Table<User>, bookings: Table<Booking>, defaultStatus: string, k: Id, status: BookingStatus)
    requires k in bookings.rows
    ensures GetDashboardStats(users, Update(bookings, k, bookings.rows[k].(status := status)), defaultStatus).totalRevenue
         == GetDashboardStats(users, bookings, defaultStatus).totalRevenue
  {
    SumUpdate(bookings, k, bookings.rows[k].(status := status), AnyBooking(), TotalAmount);
  }

  /** A new booking adds one booking and its amount to the revenue, and one pending booking if it is PENDING. */
  lemma NewBookingCounted(users: Table<User>, bookings: Table<Booking>, defaultStatus: string, b: Booking)
    ensures var (bookings', _) := Insert(bookings, b);
      var before := GetDashboardStats(users, bookings, defaultStatus);
      var after := GetDashboardStats(users, bookings', defaultStatus);
      && after.totalBookings == before.totalBookings + 1
      && after.pendingBookings == before.pendingBookings + (if b.status == PENDING then 1 else 0)
      && after.totalRevenue == before.totalRevenue + b.totalAmount
  {
    var (bookings', id) := Insert(bookings, b);
    SumInsert(bookings, b, AnyBooking(), TotalAmount);
    if b.status == PENDING {
      assert Matching(bookings', BookingIsPending()) == Matching(bookings, BookingIsPending()) + {id};
    } else {
      assert Matching(bookings', BookingIsPending()) == Matching(bookings, BookingIsPending());
    }
  }

  /**
   * A new user adds one user, and one active user exactly when its status,
   * with the schema default filled in, is ACTIVE: a user signed up with only
   * a phone number is active exactly when the default is.
   */
  lemma NewUserCounted(users: Table<User>, bookings: Table<Booking>, defaultStatus: string, u: User)
    ensures var (users', _) := Insert(users, u);
      var before := GetDashboardStats(users, bookings, defaultStatus);
      var after := GetDashboardStats(users', bookings, defaultStatus);
      && after.totalUsers == before.totalUsers + 1
      && after.activeUsers == before.activeUsers + (if UserStatus(u, defaultStatus) == "ACTIVE" then 1 else 0)
  {
    var (users', id) := Insert(users, u);
    if UserStatus(u, defaultStatus) == "ACTIVE" {
      assert Matching(users', UserIsActive(defaultStatus)) == Matching(users, UserIsActive(defaultStatus)) + {id};
    } else {
      assert Matching(users', UserIsActive(defaultStatus)) == Matching(users, UserIsActive(defaultStatus));
    }
  }

  // ---------------------------------------------------------------------------
  // Overrides

  /** How the audit trail of a booking override fails, if it does: the override row is written first. */
  datatype LogFailure = NoFailure | OverrideFails | AuditFails

  function BookingStatusName(s: BookingStatus): string {
    match s
    case PENDING => "PENDING"
    case CONFIRMED => "CONFIRMED"
    case ARRIVED => "ARRIVED"
    case IN_PROGRESS => "IN_PROGRESS"
    case COMPLETED => "COMPLETED"
    case CANCELLED => "CANCELLED"
  }

  class AdminService {
    const db: Database

    constructor (db: Database)
      ensures this.db == db
    {
      this.db := db;
    }

    /**
     * `updateUserStatus`: overwrites the user's status and then writes an
     * audit entry; when that write fails the update stands all the same.
     * Every phone number keeps finding the user it found before.
     */
    method UpdateUserStatus(userId: Id, status: string, reason: string, adminId: Id, auditWrites: bool)
      returns (r: Result<User>)
      requires db.Valid()
      modifies db`users, db`auditLogs
      ensures db.Valid()
      ensures r.Err? <==> userId !in old(db.users.rows)
      ensures r.Err? ==> r.error == NotFound("User not found")
      ensures r.Err? ==> db.users == old(db.users) && db.auditLogs == old(db.auditLogs)
      ensures r.Ok? ==> r.value == old(db.users.rows[userId]).(status := Some(status))
      ensures r.Ok? ==> db.users == Update(old(db.users), userId, r.value)
      ensures r.Ok? && auditWrites ==>
        db.auditLogs == Insert(old(db.auditLogs), AuditLog(adminId, "USER_STATUS_UPDATE_" + status, reason)).0
      ensures !auditWrites ==> db.auditLogs == old(db.auditLogs)
      ensures forall phone :: UserByPhone(db.users, phone) == old(UserByPhone(db.users, phone))
    {
      if userId !in db.users.rows {
        return Err(NotFound("User not found"));
      }
      ghost var before := db.users;
      var updated := db.users.rows[userId].(status := Some(status));
      db.users := Update(db.users, userId, updated);
      forall phone
        ensures UserByPhone(db.users, phone) == UserByPhone(before, phone)
      {
        FindFirstAgree(before, db.users, HasPhone(phone));
      }
      if auditWrites {
        db.auditLogs := Insert(db.auditLogs, AuditLog(adminId, "USER_STATUS_UPDATE_" + status, reason)).0;
      }
      return Ok(updated);
    }

    /**
     * `updateKycStatus`: overwrites the status of the KYC record only, then
     * writes an audit entry whose failure is swallowed. No provider's KYC
     * status follows it.
     */
    method UpdateKycStatus(kycId: Id, status: string, remarks: string, adminId: Id, auditWrites: bool)
      returns (r: Result<KycRecord>)
      modifies db`kycRecords, db`auditLogs
      ensures r.Err? <==> kycId !in old(db.kycRecords.rows)
      ensures r.Err? ==> r.error == NotFound("KYC Record not found")
      ensures r.Err? ==> db.kycRecords == old(db.kycRecords) && db.auditLogs == old(db.auditLogs)
      ensures r.Ok? ==> r.value == old(db.kycRecords.rows[kycId]).(status := status)
      ensures r.Ok? ==> db.kycRecords == Update(old(db.kycRecords), kycId, r.value)
      ensures r.Ok? && auditWrites ==>
        db.auditLogs == Insert(old(db.auditLogs), AuditLog(adminId, "KYC_STATUS_UPDATE_" + status, remarks)).0
      ensures !auditWrites ==> db.auditLogs == old(db.auditLogs)
      ensures db.serviceProviders == old(db.serviceProviders)
    {
      if kycId !in db.kycRecords.rows {
        return Err(NotFound("KYC Record not found"));
      }
      var updated := db.kycRecords.rows[kycId].(status := status);
      db.kycRecords := Update(db.kycRecords, kycId, updated);
      if auditWrites {
        db.auditLogs := Insert(db.auditLogs, AuditLog(adminId, "KYC_STATUS_UPDATE_" + status, remarks)).0;
      }
      return Ok(updated);
    }

    /**
     * `updateBookingStatus`: sets any status, with no transition check, then
     * writes an override row and an audit entry. A failure in either write
     * stops the rest of the trail but neither undoes the status nor changes
     * the booking returned.
     */
    method UpdateBookingStatus(bookingId: Id, status: BookingStatus, reason: string, adminId: Id, failure: LogFailure)
      returns (r: Result<Booking>)
      modifies db`bookings, db`bookingOverrides, db`auditLogs
      ensures r.Err? <==> bookingId !in old(db.bookings.rows)
      ensures r.Err? ==> r.error == NotFound("Booking not found")
      ensures r.Err? ==>
        && db.bookings == old(db.bookings)
        && db.bookingOverrides == old(db.bookingOverrides)
        && db.auditLogs == old(db.auditLogs)
      ensures r.Ok? ==> r.value == old(db.bookings.rows[bookingId]).(status := status)
      ensures r.Ok? ==> db.bookings == Update(old(db.bookings), bookingId, r.value)
      ensures r.Ok? && failure != OverrideFails ==>
        db.bookingOverrides == Insert(old(db.bookingOverrides), BookingOverride(bookingId, status)).0
      ensures failure == OverrideFails ==> db.bookingOverrides == old(db.bookingOverrides)
      ensures r.Ok? && failure == NoFailure ==>
        db.auditLogs == Insert(old(db.auditLogs), AuditLog(adminId, "BOOKING_STATUS_UPDATE_" + BookingStatusName(status), reason)).0
      ensures failure != NoFailure ==> db.auditLogs == old(db.auditLogs)
    {
      if bookingId !in db.bookings.rows {
        return Err(NotFound("Booking not found"));
      }
      var updated := db.bookings.rows[bookingId].(status := status);
      db.bookings := Update(db.bookings, bookingId, updated);
      if failure != OverrideFails {
        db.bookingOverrides := Insert(db.bookingOverrides, BookingOverride(bookingId, status)).0;
        if failure != AuditFails {
          var action := "BOOKING_STATUS_UPDATE_" + BookingStatusName(status);
          db.auditLogs := Insert(db.auditLogs, AuditLog(adminId, action, reason)).0;
        }
      }
      return Ok(updated);
    }
  }
}
