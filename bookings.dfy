/**
 * The bookings service: creating a booking with automatic provider dispatch,
 * listing, status updates, payment, cancellation with refund to the
 * customer's wallet, and live tracking of the dispatched provider.
 */
module Bookings {
  import opened Prelude
  import opened Tables
  import opened Store
  import opened Users

  // ---------------------------------------------------------------------------
  // Dispatch

  /** The dispatch filter: an ACTIVE provider with an online availability. KYC is not looked at. */
  function Dispatchable(availabilities: Table<Availability>): (Id, ServiceProvider) -> bool {
    (k: Id, p: ServiceProvider) => p.status == "ACTIVE" && HasOnlineAvailability(availabilities, k)
  }

  /** The provider a new booking is dispatched to: the earliest registered one that can be dispatched. */
  function Dispatch(providers: Table<ServiceProvider>, availabilities: Table<Availability>): (r: Option<Id>)
    ensures r.Some? ==> r.value in providers.rows
    ensures r.Some? ==> providers.rows[r.value].status == "ACTIVE" && HasOnlineAvailability(availabilities, r.value)
    ensures r.Some? ==> forall k :: k in providers.rows && k < r.value ==>
      providers.rows[k].status != "ACTIVE" || !HasOnlineAvailability(availabilities, k)
    ensures r.None? <==> forall k :: k in providers.rows ==>
      providers.rows[k].status != "ACTIVE" || !HasOnlineAvailability(availabilities, k)
  {
    FindFirst(providers, Dispatchable(availabilities))
  }

  /** Dispatch does not depend on a provider's KYC status: changing it never changes who is picked. */
  lemma DispatchIgnoresKyc(providers: Table<ServiceProvider>, availabilities: Table<Availability>, k: Id, kyc: Option<string>)
    requires k in providers.rows
    ensures Dispatch(Update(providers, k, providers.rows[k].(kycStatus := kyc)), availabilities)
         == Dispatch(providers, availabilities)
  {
    FindFirstAgree(providers, Update(providers, k, providers.rows[k].(kycStatus := kyc)), Dispatchable(availabilities));
  }

  // ---------------------------------------------------------------------------
  // Queries

  function OfUser(userId: Id): (Id, Booking) -> bool {
    (_, b: Booking) => b.userId == userId
  }

  function BookingCreatedAt(b: Booking): Time {
    b.createdAt
  }

  /** `getUserBookings`: the user's bookings, newest first. */
  function UserBookings(bookings: Table<Booking>, userId: Id): (rs: seq<(Id, Booking)>)
    ensures forall k :: k in bookings.rows && bookings.rows[k].userId == userId ==> (k, bookings.rows[k]) in rs
    ensures forall i :: 0 <= i < |rs| ==>
      rs[i].0 in bookings.rows && rs[i].1 == bookings.rows[rs[i].0] && rs[i].1.userId == userId
    ensures forall i, j :: 0 <= i < j < |rs| ==> rs[i].0 != rs[j].0
    ensures forall i, j :: 0 <= i < j < |rs| ==> rs[i].1.createdAt >= rs[j].1.createdAt
  {
    NewestFirst(bookings, OfUser(userId), BookingCreatedAt)
  }

  /** Where the tracking screen puts the provider. */
  datatype Location =
    | Reported(latitude: real, longitude: real, timestamp: Time)
    | Synthesized(timestamp: Time)
  {
    /** A reported ping is accurate to 10 metres, a synthesized position to 20. */
    function Accuracy(): int {
      if Reported? then 10 else 20
    }
  }

  datatype Tracking = Tracking(location: Option<Location>, eta: Option<int>)

  function OfProvider(providerId: Id): (Id, LocationPing) -> bool {
    (_, p: LocationPing) => p.providerId == providerId
  }

  function PingCreatedAt(p: LocationPing): Time {
    p.createdAt
  }

  /**
   * `getTrackingLocation`: the newest ping of the booking's provider, or a
   * position synthesized at the current time when that provider has sent
   * none; nothing when no provider is assigned.
   */
  function TrackingLocation(bookings: Table<Booking>, pings: Table<LocationPing>, bookingId: Id, now: Time): (r: Result<Tracking>)
    ensures r.Err? <==> bookingId !in bookings.rows
    ensures r.Err? ==> r.error == Failure("Booking not found")
    ensures r.Ok? && bookings.rows[bookingId].providerId.None? ==> r.value == Tracking(None, None)
    ensures r.Ok? && bookings.rows[bookingId].providerId.Some? ==>
      var p := bookings.rows[bookingId].providerId.value;
      && r.value.eta == Some(15)
      && r.value.location.Some?
      && (r.value.location.value.Reported? <==> exists k :: k in pings.rows && pings.rows[k].providerId == p)
      && (r.value.location.value.Synthesized? ==> r.value.location.value == Synthesized(now))
    ensures r.Ok? && r.value.location.Some? && r.value.location.value.Reported? ==>
      var p := bookings.rows[bookingId].providerId.value;
      exists k :: k in pings.rows && pings.rows[k].providerId == p
        && r.value.location.value == Reported(pings.rows[k].latitude, pings.rows[k].longitude, pings.rows[k].createdAt)
        && forall j :: j in pings.rows && pings.rows[j].providerId == p ==> pings.rows[j].createdAt <= pings.rows[k].createdAt
  {
    if bookingId !in bookings.rows then Err(Failure("Booking not found"))
    else
      var b := bookings.rows[bookingId];
      if b.providerId.None? then Ok(Tracking(None, None))
      else
        var ping := Latest(pings, OfProvider(b.providerId.value), PingCreatedAt);
        var location :=
          if ping.Some? then
            var p := pings.rows[ping.value];
            Reported(p.latitude, p.longitude, p.createdAt)
          else
            Synthesized(now);
        Ok(Tracking(Some(location), Some(15)))
  }

  // ---------------------------------------------------------------------------
  // The service

  /** The booking as cancellation leaves it, with the message shown to the customer. */
  datatype Cancellation = Cancellation(booking: Booking, message: string)

  class BookingsService {
    const db: Database

    constructor (db: Database)
      ensures this.db == db
    {
      this.db := db;
    }

    /**
     * Prices the booking from the service item and assigns the dispatched
     * provider; the booking is CONFIRMED exactly when a provider was found.
     */
    method CreateBooking(userId: Id, serviceId: Id, date: Time, addressId: Id, bookingType: string, now: Time)
      returns (r: Result<Id>)
      modifies db`bookings
      ensures r.Err? <==> serviceId !in db.serviceItems.rows
      ensures r.Err? ==> r.error == Failure("Service not found")
      ensures r.Err? ==> db.bookings == old(db.bookings)
      ensures r.Ok? ==> r.value !in old(db.bookings.rows) && db.bookings.rows.Keys == old(db.bookings.rows.Keys) + {r.value}
      ensures r.Ok? ==> forall k :: k in old(db.bookings.rows) ==> db.bookings.rows[k] == old(db.bookings.rows[k])
      ensures r.Ok? ==>
        var b := db.bookings.rows[r.value];
        && b.providerId == Dispatch(db.serviceProviders, db.availabilities)
        && (b.status == CONFIRMED <==> b.providerId.Some?)
        && (b.status == PENDING <==> b.providerId.None?)
        && b.totalAmount == db.serviceItems.rows[serviceId].price
        && b == Booking(userId, serviceId, date, db.serviceItems.rows[serviceId].price, b.status, addressId,
                        bookingType, b.providerId, UNPAID, None, None, now)
    {
      if serviceId !in db.serviceItems.rows {
        return Err(Failure("Service not found"));
      }
      var service := db.serviceItems.rows[serviceId];
      var dispatched := Dispatch(db.serviceProviders, db.availabilities);
      var status := if dispatched.Some? then CONFIRMED else PENDING;
      var booking := Booking(userId, serviceId, date, service.price, status, addressId, bookingType,
                             dispatched, UNPAID, None, None, now);
      var (bookings', id) := Insert(db.bookings, booking);
      db.bookings := bookings';
      return Ok(id);
    }

    /** Sets the status of a booking, whatever its current status. */
    method UpdateStatus(bookingId: Id, status: BookingStatus) returns (r: Result<Booking>)
      modifies db`bookings
      ensures r.Err? <==> bookingId !in old(db.bookings.rows)
      ensures r.Err? ==> r.error == RecordNotFound
      ensures r.Err? ==> db.bookings == old(db.bookings)
      ensures r.Ok? ==> r.value == old(db.bookings.rows[bookingId]).(status := status)
      ensures r.Ok? ==> db.bookings == Update(old(db.bookings), bookingId, r.value)
    {
      if bookingId !in db.bookings.rows {
        return Err(RecordNotFound);
      }
      var b := db.bookings.rows[bookingId].(status := status);
      db.bookings := Update(db.bookings, bookingId, b);
      return Ok(b);
    }

    /**
     * Marks a booking PAID and records a payment of amount 0 for it, in one
     * write; the booking's status is not looked at.
     */
    method PayBooking(bookingId: Id) returns (r: Result<Booking>)
      modifies db`bookings, db`payments
      ensures r.Err? <==> bookingId !in old(db.bookings.rows)
      ensures r.Err? ==> r.error == RecordNotFound
      ensures r.Err? ==> db.bookings == old(db.bookings) && db.payments == old(db.payments)
      ensures r.Ok? ==> r.value == old(db.bookings.rows[bookingId]).(paymentStatus := PAID)
      ensures r.Ok? ==> db.bookings == Update(old(db.bookings), bookingId, r.value)
      ensures r.Ok? ==> db.payments == Insert(old(db.payments), Payment(ForBooking(bookingId), 0, "PAID", "TEST_PAY")).0
    {
      if bookingId !in db.bookings.rows {
        return Err(RecordNotFound);
      }
      var b := db.bookings.rows[bookingId].(paymentStatus := PAID);
      db.bookings := Update(db.bookings, bookingId, b);
      db.payments := Insert(db.payments, Payment(ForBooking(bookingId), 0, "PAID", "TEST_PAY")).0;
      return Ok(b);
    }

    /** The user's wallet, opened with a zero balance if the user has none. */
    method FindOrOpenWallet(userId: Id, now: Time) returns (w: Id)
      requires db.Valid()
      modifies db`wallets
      ensures db.Valid()
      ensures WalletOfUser(db.wallets, userId) == Some(w)
      ensures old(WalletOfUser(db.wallets, userId)).Some? ==>
        w == old(WalletOfUser(db.wallets, userId)).value && db.wallets == old(db.wallets)
      ensures old(WalletOfUser(db.wallets, userId)).None? ==>
        (db.wallets, w) == Insert(old(db.wallets), Wallet(userId, 0, now))
    {
      var found := WalletOfUser(db.wallets, userId);
      if found.Some? {
        return found.value;
      }
      OpenWalletKeepsBalance(db.wallets, db.walletLedgers, userId, now);
      var (wallets', id) := Insert(db.wallets, Wallet(userId, 0, now));
      db.wallets, w := wallets', id;
    }

    /** Adds `amount` to the balance of wallet `w` and books an entry of that amount in its ledger. */
    method Credit(w: Id, entryType: string, amount: int, now: Time)
      requires db.Valid()
      requires w in db.wallets.rows
      modifies db`wallets, db`walletLedgers
      ensures db.Valid()
      ensures db.wallets == Update(old(db.wallets), w, old(db.wallets.rows[w]).(balance := old(db.wallets.rows[w].balance) + amount))
      ensures db.walletLedgers == Insert(old(db.walletLedgers), WalletLedger(w, entryType, amount, now)).0
    {
      var credited := db.wallets.rows[w].(balance := db.wallets.rows[w].balance + amount);
      var wallets' := Update(db.wallets, w, credited);
      var ledger' := Insert(db.walletLedgers, WalletLedger(w, entryType, amount, now)).0;
      CreditKeepsBalance(db.wallets, db.walletLedgers, w, entryType, amount, now);
      assert LedgerBalanced(wallets', ledger');
      db.wallets, db.walletLedgers := wallets', ledger';
    }

    /**
     * Credits `amount` to the user's wallet, opening an empty wallet first if
     * the user has none, and books a REFUND entry of that amount in its ledger.
     */
    method RefundToWallet(userId: Id, amount: int, now: Time) returns (w: Id)
      requires db.Valid()
      modifies db`wallets, db`walletLedgers
      ensures db.Valid()
      ensures w == if old(WalletOfUser(db.wallets, userId)).Some? then old(WalletOfUser(db.wallets, userId)).value else old(db.wallets.next)
      ensures db.wallets.rows.Keys == old(db.wallets.rows.Keys) + {w}
      ensures db.wallets.rows[w].userId == userId
      ensures db.wallets.rows[w].balance == (if w in old(db.wallets.rows) then old(db.wallets.rows[w].balance) else 0) + amount
      ensures forall v :: v in old(db.wallets.rows) && v != w ==> db.wallets.rows[v] == old(db.wallets.rows[v])
      ensures db.walletLedgers == Insert(old(db.walletLedgers), WalletLedger(w, "REFUND", amount, now)).0
    {
      w := FindOrOpenWallet(userId, now);
      Credit(w, "REFUND", amount, now);
    }

    /**
     * Cancels a booking that is neither COMPLETED nor CANCELLED. A PAID
     * booking is refunded in full to the customer's wallet, which is opened
     * if the customer has none, with a REFUND entry in its ledger.
     */
    method CancelBooking(bookingId: Id, reason: string, now: Time) returns (r: Result<Cancellation>)
      requires db.Valid()
      modifies db`bookings, db`wallets, db`walletLedgers
      ensures db.Valid()
      ensures bookingId !in old(db.bookings.rows) ==> r == Err(Failure("Booking not found"))
      ensures bookingId in old(db.bookings.rows) && old(db.bookings.rows[bookingId]).status in {COMPLETED, CANCELLED} ==>
        r == Err(Failure("Cannot cancel a completed or already cancelled booking"))
      ensures r.Ok? <==> bookingId in old(db.bookings.rows) && old(db.bookings.rows[bookingId]).status !in {COMPLETED, CANCELLED}
      ensures r.Err? ==> unchanged(db)
      ensures r.Ok? ==>
        var b := old(db.bookings.rows[bookingId]);
        && r.value.booking == b.(status := CANCELLED, cancellationReason := Some(reason), cancelledAt := Some(now),
                                 paymentStatus := if b.paymentStatus == PAID then REFUNDED else b.paymentStatus)
        && db.bookings == Update(old(db.bookings), bookingId, r.value.booking)
        && r.value.message == "Booking cancelled successfully. " + (if b.paymentStatus == PAID then "Refund initiated to wallet." else "")
      ensures r.Ok? && old(db.bookings.rows[bookingId]).paymentStatus != PAID ==>
        db.wallets == old(db.wallets) && db.walletLedgers == old(db.walletLedgers)
      ensures r.Ok? && old(db.bookings.rows[bookingId]).paymentStatus == PAID ==>
        var b := old(db.bookings.rows[bookingId]);
        var existing := old(WalletOfUser(db.wallets, b.userId));
        var w := if existing.Some? then existing.value else old(db.wallets.next);
        && db.wallets.rows.Keys == old(db.wallets.rows.Keys) + {w}
        && db.wallets.rows[w].userId == b.userId
        && db.wallets.rows[w].balance == (if existing.Some? then old(db.wallets.rows[w].balance) else 0) + b.totalAmount
        && (forall v :: v in old(db.wallets.rows) && v != w ==> db.wallets.rows[v] == old(db.wallets.rows[v]))
        && db.walletLedgers == Insert(old(db.walletLedgers), WalletLedger(w, "REFUND", b.totalAmount, now)).0
    {
      if bookingId !in db.bookings.rows {
        return Err(Failure("Booking not found"));
      }
      var b := db.bookings.rows[bookingId];
      if b.status == COMPLETED || b.status == CANCELLED {
        return Err(Failure("Cannot cancel a completed or already cancelled booking"));
      }
      var paymentStatus := b.paymentStatus;
      var refundMessage := "";
      if b.paymentStatus == PAID {
        paymentStatus := REFUNDED;
        refundMessage := "Refund initiated to wallet.";
        var _ := RefundToWallet(b.userId, b.totalAmount, now);
      }
      var cancelled := b.(status := CANCELLED, cancellationReason := Some(reason), cancelledAt := Some(now),
                          paymentStatus := paymentStatus);
      db.bookings := Update(db.bookings, bookingId, cancelled);
      return Ok(Cancellation(cancelled, "Booking cancelled successfully. " + refundMessage));
    }
  }

  /** A booking is refunded at most once: cancelling it again fails and books no second entry. */
  method CancelTwice(service: BookingsService, bookingId: Id, reason: string, now: Time)
    returns (first: Result<Cancellation>, second: Result<Cancellation>)
    requires service.db.Valid()
    modifies service.db`bookings, service.db`wallets, service.db`walletLedgers
    ensures service.db.Valid()
    ensures first.Ok? ==> second == Err(Failure("Cannot cancel a completed or already cancelled booking"))
    ensures |service.db.walletLedgers.rows.Keys - old(service.db.walletLedgers.rows.Keys)| <= 1
  {
    first := service.CancelBooking(bookingId, reason, now);
    second := service.CancelBooking(bookingId, reason, now);
  }
}
