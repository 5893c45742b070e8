/**
 * The service-provider side: registration, login, the availability switch,
 * the job machine on `SpBooking` rows, location pings, earnings and payouts
 * from the provider wallet.
 */
module Providers {
  import opened Prelude
  import opened Tables
  import opened Store
  import opened Users

  /** The code every provider login is checked against. */
  const ProviderOtp := "123456"

  /** What a completed job pays, both in the wallet credit and in the earnings report. */
  const JobPayout := 500

  function OfUserAccount(userId: Id): (Id, ServiceProvider) -> bool {
    (_, p: ServiceProvider) => p.userId == userId
  }

  /** The first provider registered for a user, if any. */
  function ProviderOfUser(providers: Table<ServiceProvider>, userId: Id): (r: Option<Id>)
    ensures r.Some? ==> r.value in providers.rows && providers.rows[r.value].userId == userId
    ensures r.Some? ==> forall k :: k in providers.rows && k < r.value ==> providers.rows[k].userId != userId
    ensures r.None? <==> forall k :: k in providers.rows ==> providers.rows[k].userId != userId
  {
    FindFirst(providers, OfUserAccount(userId))
  }

  /**
   * `verifyOtp`: a code other than the fixed one is refused, then the phone
   * number must belong to a user; the result is that user's first provider,
   * if there is one.
   */
  function ProviderLogin(users: Table<User>, providers: Table<ServiceProvider>, phoneNumber: string, otp: string)
    : (r: Result<Option<Id>>)
    ensures otp != ProviderOtp <==> r == Err(BadRequest("Invalid OTP"))
    ensures otp == ProviderOtp && UserByPhone(users, phoneNumber).None? <==> r == Err(NotFound("User not found"))
    ensures r.Ok? <==> otp == ProviderOtp && UserByPhone(users, phoneNumber).Some?
    ensures r.Ok? ==>
      exists u :: u in users.rows && users.rows[u].phoneNumber == phoneNumber && r.value == ProviderOfUser(providers, u)
  {
    if otp != ProviderOtp then Err(BadRequest("Invalid OTP"))
    else
      var user := UserByPhone(users, phoneNumber);
      if user.None? then Err(NotFound("User not found"))
      else Ok(ProviderOfUser(providers, user.value))
  }

  function AvailabilityOf(providerId: Id): (Id, Availability) -> bool {
    (_, a: Availability) => a.providerId == providerId
  }

  function JobIsPending(): (Id, SpBooking) -> bool {
    (_, j: SpBooking) => j.status == "PENDING"
  }

  /** `getNearbyJobs`: every PENDING job, oldest first, whoever asks. */
  function PendingJobs(jobs: Table<SpBooking>): (r: seq<Id>)
    ensures forall k :: k in r <==> k in jobs.rows && jobs.rows[k].status == "PENDING"
    ensures Increasing(r)
  {
    Select(jobs, JobIsPending())
  }

  function InProgressFor(providerId: Id): (Id, SpBooking) -> bool {
    (_, j: SpBooking) => j.providerId == Some(providerId) && j.status == "IN_PROGRESS"
  }

  function CompletedBy(providerId: Id): (Id, SpBooking) -> bool {
    (_, j: SpBooking) => j.providerId == Some(providerId) && j.status == "COMPLETED"
  }

  datatype Earnings = Earnings(totalEarnings: int, jobCount: nat)

  /** `getEarnings`: the number of the provider's COMPLETED jobs, and 500 for each. */
  function ProviderEarnings(jobs: Table<SpBooking>, providerId: Id): (e: Earnings)
    ensures e.jobCount == |Matching(jobs, CompletedBy(providerId))|
    ensures e.totalEarnings == JobPayout * e.jobCount
  {
    var n := Count(jobs, CompletedBy(providerId));
    Earnings(JobPayout * n, n)
  }

  /** Completing a job of the provider that was not yet COMPLETED adds exactly one job and 500 to its earnings. */
  lemma CompletingRaisesEarnings(jobs: Table<SpBooking>, jobId: Id, providerId: Id, now: Time)
    requires jobId in jobs.rows
    requires jobs.rows[jobId].providerId == Some(providerId) && jobs.rows[jobId].status != "COMPLETED"
    ensures var done := jobs.rows[jobId].(status := "COMPLETED", endTime := Some(now));
      var after := ProviderEarnings(Update(jobs, jobId, done), providerId);
      && after.jobCount == ProviderEarnings(jobs, providerId).jobCount + 1
      && after.totalEarnings == ProviderEarnings(jobs, providerId).totalEarnings + JobPayout
  {
    var done := jobs.rows[jobId].(status := "COMPLETED", endTime := Some(now));
    var jobs' := Update(jobs, jobId, done);
    var p := CompletedBy(providerId);
    assert Matching(jobs', p) == Matching(jobs, p) + {jobId};
    assert jobId !in Matching(jobs, p);
  }

  /** Completing a job of another provider, or one already COMPLETED, leaves the earnings as they were. */
  lemma CompletingOtherKeepsEarnings(jobs: Table<SpBooking>, jobId: Id, providerId: Id, now: Time)
    requires jobId in jobs.rows
    requires jobs.rows[jobId].providerId != Some(providerId) || jobs.rows[jobId].status == "COMPLETED"
    ensures var done := jobs.rows[jobId].(status := "COMPLETED", endTime := Some(now));
      ProviderEarnings(Update(jobs, jobId, done), providerId) == ProviderEarnings(jobs, providerId)
  {
    var done := jobs.rows[jobId].(status := "COMPLETED", endTime := Some(now));
    var jobs' := Update(jobs, jobId, done);
    var p := CompletedBy(providerId);
    assert Matching(jobs', p) == Matching(jobs, p);
  }

  function WalletOfProvider(providerId: Id): (Id, SpWallet) -> bool {
    (_, w: SpWallet) => w.providerId == providerId
  }

  datatype Registration = Registered(providerId: Id) | AlreadyRegistered(providerId: Id)

  class ProviderService {
    const db: Database

    constructor (db: Database)
      ensures this.db == db
    {
      this.db := db;
    }

    /** Creates a PENDING provider for user `u`, with its profile, an empty wallet and an offline availability. */
    method CreateProvider(u: Id, name: string, phoneNumber: string, serviceCategories: seq<string>) returns (p: Id)
      requires db.Valid()
      modifies db`serviceProviders, db`providerProfiles, db`spWallets, db`availabilities
      ensures db.Valid()
      ensures (db.serviceProviders, p) == Insert(old(db.serviceProviders), ServiceProvider(u, name, phoneNumber, "PENDING", None, None))
      ensures db.providerProfiles == Insert(old(db.providerProfiles), ProviderProfile(p, serviceCategories, [])).0
      ensures db.spWallets == Insert(old(db.spWallets), SpWallet(p, 0)).0
      ensures db.availabilities == Insert(old(db.availabilities), Availability(p, false, None)).0
      ensures old(ProviderOfUser(db.serviceProviders, u)).None? ==> ProviderOfUser(db.serviceProviders, u) == Some(p)
    {
      var (providers', id) := Insert(db.serviceProviders, ServiceProvider(u, name, phoneNumber, "PENDING", None, None));
      p := id;
      db.serviceProviders := providers';
      db.providerProfiles := Insert(db.providerProfiles, ProviderProfile(p, serviceCategories, [])).0;
      db.spWallets := Insert(db.spWallets, SpWallet(p, 0)).0;
      db.availabilities := Insert(db.availabilities, Availability(p, false, None)).0;
    }

    /**
     * Finds or creates the user for the phone number, then, unless that user
     * already has a provider, creates the provider with its profile, an
     * empty wallet and an offline availability.
     */
    method Register(phoneNumber: string, name: string, serviceCategories: seq<string>) returns (r: Registration)
      requires db.Valid()
      modifies db`users, db`serviceProviders, db`providerProfiles, db`spWallets, db`availabilities
      ensures db.Valid()
      ensures old(UserByPhone(db.users, phoneNumber)).Some? ==> db.users == old(db.users)
      ensures old(UserByPhone(db.users, phoneNumber)).None? ==>
        db.users == Insert(old(db.users), User(phoneNumber, Some(name), Some(PROVIDER), Some("PENDING"))).0
      ensures UserByPhone(db.users, phoneNumber).Some?
      ensures var u := UserByPhone(db.users, phoneNumber).value;
        old(ProviderOfUser(db.serviceProviders, u)).Some? ==>
          && r == AlreadyRegistered(old(ProviderOfUser(db.serviceProviders, u)).value)
          && db.serviceProviders == old(db.serviceProviders)
          && db.providerProfiles == old(db.providerProfiles)
          && db.spWallets == old(db.spWallets)
          && db.availabilities == old(db.availabilities)
      ensures var u := UserByPhone(db.users, phoneNumber).value;
        old(ProviderOfUser(db.serviceProviders, u)).None? ==>
          && r.Registered?
          && (db.serviceProviders, r.providerId)
             == Insert(old(db.serviceProviders), ServiceProvider(u, name, phoneNumber, "PENDING", None, None))
          && db.providerProfiles == Insert(old(db.providerProfiles), ProviderProfile(r.providerId, serviceCategories, [])).0
          && db.spWallets == Insert(old(db.spWallets), SpWallet(r.providerId, 0)).0
          && db.availabilities == Insert(old(db.availabilities), Availability(r.providerId, false, None)).0
      ensures ProviderOfUser(db.serviceProviders, UserByPhone(db.users, phoneNumber).value) == Some(r.providerId)
    {
      var u := FindOrCreateUser(db, User(phoneNumber, Some(name), Some(PROVIDER), Some("PENDING")));
      var existing := ProviderOfUser(db.serviceProviders, u);
      if existing.Some? {
        return AlreadyRegistered(existing.value);
      }
      var p := CreateProvider(u, name, phoneNumber, serviceCategories);
      return Registered(p);
    }

    /** Flips the provider's first availability record online or offline and stamps it. */
    method ToggleAvailability(providerId: Id, now: Time) returns (r: Result<bool>)
      modifies db`availabilities
      ensures r.Err? <==> old(FindFirst(db.availabilities, AvailabilityOf(providerId))).None?
      ensures r.Err? ==> r.error == NotFound("Availability record not found")
      ensures r.Err? ==> db.availabilities == old(db.availabilities)
      ensures r.Ok? ==>
        var a := old(FindFirst(db.availabilities, AvailabilityOf(providerId))).value;
        && r.value == !old(db.availabilities.rows[a].isOnline)
        && db.availabilities == Update(old(db.availabilities), a, old(db.availabilities.rows[a]).(isOnline := r.value, lastSeen := Some(now)))
      ensures FindFirst(db.availabilities, AvailabilityOf(providerId)) == old(FindFirst(db.availabilities, AvailabilityOf(providerId)))
    {
      var found := FindFirst(db.availabilities, AvailabilityOf(providerId));
      if found.None? {
        return Err(NotFound("Availability record not found"));
      }
      var a := db.availabilities.rows[found.value];
      var newStatus := !a.isOnline;
      FindFirstAgree(db.availabilities, Update(db.availabilities, found.value, a.(isOnline := newStatus, lastSeen := Some(now))), AvailabilityOf(providerId));
      db.availabilities := Update(db.availabilities, found.value, a.(isOnline := newStatus, lastSeen := Some(now)));
      return Ok(newStatus);
    }

    /**
     * Takes a PENDING job for the provider. Refused, with nothing changed,
     * for an unknown provider, a provider whose KYC is not APPROVED, an
     * unknown job, or a job that is no longer PENDING, checked in that order.
     */
    method AcceptJob(providerId: Id, jobId: Id) returns (r: Result<SpBooking>)
      modifies db`spBookings
      ensures providerId !in db.serviceProviders.rows ==> r == Err(NotFound("Provider not found"))
      ensures providerId in db.serviceProviders.rows && db.serviceProviders.rows[providerId].kycStatus != Some("APPROVED") ==>
        r == Err(BadRequest("KYC verification required to accept jobs"))
      ensures providerId in db.serviceProviders.rows && db.serviceProviders.rows[providerId].kycStatus == Some("APPROVED") ==>
        && (jobId !in old(db.spBookings.rows) ==> r == Err(NotFound("Job not found")))
        && (jobId in old(db.spBookings.rows) && old(db.spBookings.rows[jobId]).status != "PENDING" ==>
              r == Err(BadRequest("Job already taken or cancelled")))
      ensures r.Ok? <==>
        && providerId in db.serviceProviders.rows && db.serviceProviders.rows[providerId].kycStatus == Some("APPROVED")
        && jobId in old(db.spBookings.rows) && old(db.spBookings.rows[jobId]).status == "PENDING"
      ensures r.Err? ==> db.spBookings == old(db.spBookings)
      ensures r.Ok? ==> r.value == old(db.spBookings.rows[jobId]).(status := "ACCEPTED", providerId := Some(providerId))
      ensures r.Ok? ==> db.spBookings == Update(old(db.spBookings), jobId, r.value)
    {
      if providerId !in db.serviceProviders.rows {
        return Err(NotFound("Provider not found"));
      }
      if db.serviceProviders.rows[providerId].kycStatus != Some("APPROVED") {
        return Err(BadRequest("KYC verification required to accept jobs"));
      }
      if jobId !in db.spBookings.rows {
        return Err(NotFound("Job not found"));
      }
      if db.spBookings.rows[jobId].status != "PENDING" {
        return Err(BadRequest("Job already taken or cancelled"));
      }
      var job := db.spBookings.rows[jobId].(status := "ACCEPTED", providerId := Some(providerId));
      db.spBookings := Update(db.spBookings, jobId, job);
      return Ok(job);
    }

    /** Overwrites the status of a job, whatever it was; an unknown job is an error. */
    method SetJobStatus(jobId: Id, status: string) returns (r: Result<SpBooking>)
      modifies db`spBookings
      ensures r.Err? <==> jobId !in old(db.spBookings.rows)
      ensures r.Err? ==> r.error == RecordNotFound
      ensures r.Err? ==> db.spBookings == old(db.spBookings)
      ensures r.Ok? ==> r.value == old(db.spBookings.rows[jobId]).(status := status)
      ensures r.Ok? ==> db.spBookings == Update(old(db.spBookings), jobId, r.value)
    {
      if jobId !in db.spBookings.rows {
        return Err(RecordNotFound);
      }
      var job := db.spBookings.rows[jobId].(status := status);
      db.spBookings := Update(db.spBookings, jobId, job);
      return Ok(job);
    }

    /** `rejectJob`: sets REJECTED, from any status and for any caller. */
    method RejectJob(providerId: Id, jobId: Id) returns (r: Result<SpBooking>)
      modifies db`spBookings
      ensures r.Err? <==> jobId !in old(db.spBookings.rows)
      ensures r.Err? ==> r.error == RecordNotFound
      ensures r.Err? ==> db.spBookings == old(db.spBookings)
      ensures r.Ok? ==> r.value == old(db.spBookings.rows[jobId]).(status := "REJECTED")
      ensures r.Ok? ==> db.spBookings == Update(old(db.spBookings), jobId, r.value)
    {
      r := SetJobStatus(jobId, "REJECTED");
    }

    /** `markArrival`: sets ARRIVED, from any status and for any caller. */
    method MarkArrival(providerId: Id, jobId: Id) returns (r: Result<SpBooking>)
      modifies db`spBookings
      ensures r.Err? <==> jobId !in old(db.spBookings.rows)
      ensures r.Err? ==> r.error == RecordNotFound
      ensures r.Err? ==> db.spBookings == old(db.spBookings)
      ensures r.Ok? ==> r.value == old(db.spBookings.rows[jobId]).(status := "ARRIVED")
      ensures r.Ok? ==> db.spBookings == Update(old(db.spBookings), jobId, r.value)
    {
      r := SetJobStatus(jobId, "ARRIVED");
    }

    /** `startJob`: sets IN_PROGRESS and the start time, from any status and for any caller. */
    method StartJob(providerId: Id, jobId: Id, now: Time) returns (r: Result<SpBooking>)
      modifies db`spBookings
      ensures r.Err? <==> jobId !in old(db.spBookings.rows)
      ensures r.Err? ==> r.error == RecordNotFound
      ensures r.Err? ==> db.spBookings == old(db.spBookings)
      ensures r.Ok? ==> r.value == old(db.spBookings.rows[jobId]).(status := "IN_PROGRESS", startTime := Some(now))
      ensures r.Ok? ==> db.spBookings == Update(old(db.spBookings), jobId, r.value)
    {
      if jobId !in db.spBookings.rows {
        return Err(RecordNotFound);
      }
      var job := db.spBookings.rows[jobId].(status := "IN_PROGRESS", startTime := Some(now));
      db.spBookings := Update(db.spBookings, jobId, job);
      return Ok(job);
    }

    /**
     * `completeJob`: sets COMPLETED and the end time, from any status, then
     * credits 500 to the first wallet of the calling provider, if it has one.
     * The job's own provider is not compared with the caller.
     */
    method CompleteJob(providerId: Id, jobId: Id, now: Time) returns (r: Result<SpBooking>)
      requires db.Valid()
      modifies db`spBookings, db`spWallets
      ensures db.Valid()
      ensures r.Err? <==> jobId !in old(db.spBookings.rows)
      ensures r.Err? ==> r.error == RecordNotFound
      ensures r.Err? ==> db.spBookings == old(db.spBookings) && db.spWallets == old(db.spWallets)
      ensures r.Ok? ==> r.value == old(db.spBookings.rows[jobId]).(status := "COMPLETED", endTime := Some(now))
      ensures r.Ok? ==> db.spBookings == Update(old(db.spBookings), jobId, r.value)
      ensures r.Ok? && old(FindFirst(db.spWallets, WalletOfProvider(providerId))).None? ==> db.spWallets == old(db.spWallets)
      ensures r.Ok? && old(FindFirst(db.spWallets, WalletOfProvider(providerId))).Some? ==>
        var w := old(FindFirst(db.spWallets, WalletOfProvider(providerId))).value;
        db.spWallets == Update(old(db.spWallets), w, old(db.spWallets.rows[w]).(balance := old(db.spWallets.rows[w].balance) + JobPayout))
    {
      if jobId !in db.spBookings.rows {
        return Err(RecordNotFound);
      }
      var job := db.spBookings.rows[jobId].(status := "COMPLETED", endTime := Some(now));
      db.spBookings := Update(db.spBookings, jobId, job);
      var wallet := FindFirst(db.spWallets, WalletOfProvider(providerId));
      if wallet.Some? {
        var w := db.spWallets.rows[wallet.value];
        db.spWallets := Update(db.spWallets, wallet.value, w.(balance := w.balance + JobPayout));
      }
      return Ok(job);
    }

    /**
     * `updateLocation`: records a ping against the provider's first
     * IN_PROGRESS job; without such a job nothing is recorded. The reply is
     * the same either way.
     */
    method UpdateLocation(providerId: Id, latitude: real, longitude: real, now: Time) returns (message: string)
      modifies db`locationPings
      ensures message == "Location updated"
      ensures old(FindFirst(db.spBookings, InProgressFor(providerId))).None? ==> db.locationPings == old(db.locationPings)
      ensures old(FindFirst(db.spBookings, InProgressFor(providerId))).Some? ==>
        var job := old(FindFirst(db.spBookings, InProgressFor(providerId))).value;
        && db.spBookings.rows[job].providerId == Some(providerId)
        && db.spBookings.rows[job].status == "IN_PROGRESS"
        && db.locationPings == Insert(old(db.locationPings), LocationPing(providerId, job, latitude, longitude, now)).0
    {
      var job := FindFirst(db.spBookings, InProgressFor(providerId));
      if job.Some? {
        db.locationPings := Insert(db.locationPings, LocationPing(providerId, job.value, latitude, longitude, now)).0;
      }
      return "Location updated";
    }

    /**
     * `requestPayout`: debits the provider's first wallet and records a
     * REQUESTED payout, unless there is no wallet or its balance is below the
     * amount. The amount's sign is not checked.
     */
    method RequestPayout(providerId: Id, amount: int) returns (r: Result<Id>)
      requires db.Valid()
      modifies db`spWallets, db`payouts
      ensures db.Valid()
      ensures var w := old(FindFirst(db.spWallets, WalletOfProvider(providerId)));
        r.Err? <==> w.None? || old(db.spWallets.rows[w.value].balance) < amount
      ensures r.Err? ==> r.error == BadRequest("Insufficient balance")
      ensures r.Err? ==> db.spWallets == old(db.spWallets) && db.payouts == old(db.payouts)
      ensures r.Ok? ==>
        var w := old(FindFirst(db.spWallets, WalletOfProvider(providerId))).value;
        && db.spWallets == Update(old(db.spWallets), w, old(db.spWallets.rows[w]).(balance := old(db.spWallets.rows[w].balance) - amount))
        && db.spWallets.rows[w].balance >= 0
        && (db.payouts, r.value) == Insert(old(db.payouts), Payout(w, amount, "REQUESTED"))
    {
      var wallet := FindFirst(db.spWallets, WalletOfProvider(providerId));
      if wallet.None? || db.spWallets.rows[wallet.value].balance < amount {
        return Err(BadRequest("Insufficient balance"));
      }
      var w := db.spWallets.rows[wallet.value];
      db.spWallets := Update(db.spWallets, wallet.value, w.(balance := w.balance - amount));
      var (payouts', id) := Insert(db.payouts, Payout(wallet.value, amount, "REQUESTED"));
      db.payouts := payouts';
      return Ok(id);
    }
  }

  /** Registering twice with one phone number creates the provider once and then reports it as already registered. */
  method RegisterTwice(service: ProviderService, phoneNumber: string, name: string, serviceCategories: seq<string>)
    returns (first: Registration, second: Registration)
    requires service.db.Valid()
    modifies service.db`users, service.db`serviceProviders, service.db`providerProfiles, service.db`spWallets, service.db`availabilities
    ensures service.db.Valid()
    ensures second == AlreadyRegistered(first.providerId)
  {
    first := service.Register(phoneNumber, name, serviceCategories);
    second := service.Register(phoneNumber, name, serviceCategories);
  }

  /** A job can be accepted once: a second accept, by anyone, is refused. */
  method AcceptTwice(service: ProviderService, providerId: Id, otherId: Id, jobId: Id)
    returns (first: Result<SpBooking>, second: Result<SpBooking>)
    modifies service.db`spBookings
    ensures first.Ok? ==> second.Err?
    ensures first.Ok? && otherId in service.db.serviceProviders.rows && service.db.serviceProviders.rows[otherId].kycStatus == Some("APPROVED")
      ==> second == Err(BadRequest("Job already taken or cancelled"))
  {
    first := service.AcceptJob(providerId, jobId);
    second := service.AcceptJob(otherId, jobId);
  }

  /** Toggling availability twice restores every online flag. */
  method ToggleTwice(service: ProviderService, providerId: Id, now: Time, later: Time)
    returns (first: Result<bool>, second: Result<bool>)
    modifies service.db`availabilities
    ensures first.Ok? <==> second.Ok?
    ensures first.Ok? ==> second == Ok(!first.value)
    ensures service.db.availabilities.rows.Keys == old(service.db.availabilities.rows.Keys)
    ensures forall a :: a in old(service.db.availabilities.rows) ==>
      service.db.availabilities.rows[a].isOnline == old(service.db.availabilities.rows[a].isOnline)
  {
    first := service.ToggleAvailability(providerId, now);
    second := service.ToggleAvailability(providerId, later);
  }
}
