# Home-services marketplace backend — a Dafny model

This project models the service layer of a NestJS marketplace backend. The
backend matches customers who request home services with service providers,
follows each booking through its lifecycle, and moves money between wallets
as bookings are paid, cancelled and completed. The six services modelled are:

- `BookingsService`: booking creation with automatic dispatch to a provider, status updates, payment, cancellation with a refund to the customer's wallet, and live tracking.
- `ServiceProviderService`: registration, login, the online switch, the job state machine on provider jobs, location pings, earnings and payouts.
- `CustomerService`: sign-up and login, profile and addresses, category discovery by city, bookings, payments and ratings.
- `AuthService`: one-time codes kept in memory.
- `UsersService`: users looked up by phone number, and their wallets.
- `AdminService`: status overrides with an audit trail, the KYC queue, the wallet ledger view and the dashboard figures.

The relational store behind these services is modelled as a `Database`
class with one field per table (`store.dfy`). Each table is a
`Table<R>`: a map from numeric ids to rows, plus the next id to hand out
(`tables.dfy`).

- Creating a row takes the next id.
- A `findFirst`/`findUnique` returns the matching row with the smallest id.
- A `findMany` returns the matching rows in id order, unless it asks for an `orderBy`.

The services are classes holding the database. Their methods change exactly
the tables named in their `modifies` clauses and state the new contents of
each one. Queries that only read are functions.

Three invariants of the store are kept by every method that touches those
tables (`Database.Valid`):

- Phone numbers are unique among users.
- Every user wallet's balance equals the sum of its ledger entries.
- No provider wallet is overdrawn.

Error results are values: `Result<T>` is either `Ok(value)` or
`Err(error)`, and `Error` mirrors the exceptions the services throw:

- `NotFound(message)`: a `NotFoundException`.
- `BadRequest(message)`: a `BadRequestException`.
- `Unauthorized(message)`: an `UnauthorizedException`.
- `Failure(message)`: a plain `Error`.
- `RecordNotFound`: the ORM's error for an update of a missing row.

The modules follow the source files:

| module | file | source |
|---|---|---|
| `Prelude` | `prelude.dfy` | ids, time stamps, `Option`, `Result`, `Error` |
| `Tables` | `tables.dfy` | the table abstraction, ordered queries, counts and sums |
| `Store` | `store.dfy` | rows of every table, the store invariants, `Database` |
| `Users` | `users.dfy` | `src/users/users.service.ts` |
| `Auth` | `auth.dfy` | `src/auth/auth.service.ts` |
| `Bookings` | `bookings.dfy` | `src/bookings/bookings.service.ts` |
| `Providers` | `providers.dfy` | `src/service-provider/service-provider.service.ts` |
| `Customers` | `customer.dfy` | `src/customer/customer.service.ts` |
| `Admin` | `admin.dfy` | `src/admin/admin.service.ts` |

## Behaviour worth knowing

The model states these properties of the code as it is written:

- **Dispatch ignores KYC.** A new booking is dispatched to the first ACTIVE provider with an online availability record, and KYC approval is not checked (`Bookings.DispatchIgnoresKyc`). KYC is checked only when a provider accepts a job.
- **Job transitions are not ordered.** Arrival, start and completion are not checked against the current status: `Providers.ProviderService.MarkArrival`, `StartJob` and `CompleteJob` overwrite any status. The caller is not compared with the job's provider either.
- **Errors are bad requests.** Accepting a taken job fails with a bad-request error ("Job already taken or cancelled"). A wrong code at the provider or customer login also fails with a bad-request error; the phone login of the auth service answers with an unauthorized error.
- **A login without a code can pass.** The auth service compares the stored code with the one in the request. A request that carries no code, for a number that has no stored code, compares equal and logs the number in, creating its user (`Auth.MissingCodeAccepted`, `Auth.AuthService.VerifyOtp`). So does such a request right after a code was used and removed (`Auth.UsedCodeIsSpent`).
- **Users signed up by phone keep the default status.** The auth and users services create a user with only a phone number, so its status is the schema default. The dashboard counts such a user as active exactly when that default is ACTIVE (`Admin.NewUserCounted`).
- **Payment has no status check.** Paying a booking looks at neither its status nor its payment status.
- **Tracking uses the provider.** The tracking view reads the newest ping of the booking's provider, whichever job that ping was sent for.
- **Three kinds of booking row.** Bookings made through the bookings service, provider jobs and customer bookings are three separate tables, as in the schema the services use.
- **Payout amounts are unchecked.** The payout request checks only that the balance covers the amount. The amount's sign is not checked.
- **KYC review stays on the record.** Approving or rejecting a KYC record changes only that record, not the provider's KYC status that job acceptance checks.
- **Payout credits the caller.** Completing a job credits the first wallet of the provider named in the request, not of the provider assigned to the job.

## Model

| member | source | states |
|---|---|---|
| Store.LedgerTotalUnused | src/users/users.service.ts:41-51 | a wallet that no ledger entry belongs to has ledger total 0, so a freshly opened wallet with balance 0 is balanced |
| Store.LedgerTotalAppend | src/bookings/bookings.service.ts:133-138 | appending a ledger entry moves the total of its own wallet by the entry's amount and leaves every other wallet's total unchanged |
| Store.OpenWalletKeepsBalance | src/bookings/bookings.service.ts:118-126 | opening a zero-balance wallet keeps every wallet's balance equal to its ledger total |
| Store.CreditKeepsBalance | src/bookings/bookings.service.ts:129-140 | crediting a wallet by an amount together with one ledger entry of that amount keeps every balance equal to its ledger total |
| Users.UserByPhone | src/users/users.service.ts:9-13 | the lookup finds a user with that phone number, and finds none exactly when no user has it |
| Users.UserByPhoneFinds | src/users/users.service.ts:9-13 | with unique phone numbers, looking up a user's number finds that very user |
| Users.AddUserKeepsPhonesUnique | src/users/users.service.ts:21-29 | creating a user whose number is not taken keeps numbers unique, and the number then finds the new user |
| Users.WalletOfUser | src/users/users.service.ts:32-34 | the lookup returns a wallet of that user, and none exactly when the user has no wallet |
| Users.WalletOfUserUpdate | src/bookings/bookings.service.ts:129-132 | rewriting a wallet without changing its owner leaves every user's wallet lookup unchanged |
| Users.LedgerNewestFirst | src/users/users.service.ts:34-38 | lists every ledger entry of the wallet once, with its id, and nothing else, newest first |
| Users.LedgerOfUnusedWallet | src/users/users.service.ts:41-51 | a wallet with no entries shows an empty ledger |
| Users.FindOrCreateUser | src/service-provider/service-provider.service.ts:19-32 | returns the user the phone number finds; nothing is created when one exists, otherwise exactly the given user row is inserted, and numbers stay unique |
| Users.UsersService.FindOrCreate | src/users/users.service.ts:21-29 | returns the user with that number, creating a user with only that number when there is none; numbers stay unique |
| Users.UsersService.GetWallet | src/users/users.service.ts:31-54 | returns the user's wallet, opening a zero-balance one only when the user has none, with its ledger newest first; balances stay equal to ledger totals |
| Users.FindOrCreateTwice | src/users/users.service.ts:21-29 | two calls with one number return the same user and create at most one row |
| Auth.MissingCodeAccepted | src/auth/auth.service.ts:32-38 | a request without a code is accepted exactly when no code is stored for the number |
| Auth.UsedCodeIsSpent | src/auth/auth.service.ts:32-41 | once the stored code of a number is removed, only the universal code, or a request without a code, is accepted for it |
| Auth.SentCodeAccepted | src/auth/auth.service.ts:12-38 | right after a code is sent to a number, exactly the universal code is accepted for it |
| Auth.AuthService.constructor | src/auth/auth.service.ts:10 | the code store starts empty |
| Auth.AuthService.SendOtp | src/auth/auth.service.ts:12-30 | an empty number is refused with the store untouched; otherwise the number's code is set to the mock code |
| Auth.AuthService.VerifyOtp | src/auth/auth.service.ts:32-55 | succeeds exactly when the code, possibly absent, equals the stored one (absent when none is stored) or is the universal one; on success the stored code is removed and the result is the existing user with that number, with the users unchanged, or else exactly one new user with only that number; on failure it is Unauthorized and nothing changes |
| Bookings.Dispatch | src/bookings/bookings.service.ts:15-39 | picks the earliest-registered ACTIVE provider with an online availability, and none exactly when no provider qualifies |
| Bookings.DispatchIgnoresKyc | src/bookings/bookings.service.ts:15-23 | changing a provider's KYC status never changes which provider is dispatched |
| Bookings.UserBookings | src/bookings/bookings.service.ts:62-71 | lists every booking of the user exactly once, and nothing else, newest first |
| Bookings.TrackingLocation | src/bookings/bookings.service.ts:159-194 | an unknown booking is an error; without a provider there is no location; otherwise the ETA is 15 and the location is the provider's newest ping, or a position stamped now exactly when the provider has sent none |
| Bookings.BookingsService.CreateBooking | src/bookings/bookings.service.ts:9-60 | an unknown service is an error with nothing written; otherwise exactly one booking is added, priced at the service's price, assigned the dispatched provider, CONFIRMED exactly when a provider was found and PENDING otherwise, and UNPAID |
| Bookings.BookingsService.UpdateStatus | src/bookings/bookings.service.ts:73-79 | an unknown booking is an error; otherwise only that booking's status changes, to any status |
| Bookings.BookingsService.PayBooking | src/bookings/bookings.service.ts:80-95 | an unknown booking is an error; otherwise that booking becomes PAID and one zero-amount payment is recorded for it |
| Bookings.BookingsService.FindOrOpenWallet | src/bookings/bookings.service.ts:118-126 | returns the user's wallet, opening a zero-balance wallet only when the user has none; balances stay equal to ledger totals |
| Bookings.BookingsService.Credit | src/bookings/bookings.service.ts:129-140 | adds the amount to the wallet's balance and appends one ledger entry of that amount; balances stay equal to ledger totals |
| Bookings.BookingsService.RefundToWallet | src/bookings/bookings.service.ts:111-141 | credits the amount to the user's existing or newly opened wallet, with one REFUND entry; no other wallet changes |
| Bookings.BookingsService.CancelBooking | src/bookings/bookings.service.ts:97-158 | an unknown, COMPLETED or CANCELLED booking is refused with nothing changed; otherwise the booking is CANCELLED with reason and time, and a PAID booking becomes REFUNDED with its full amount credited to the customer's wallet and booked as one REFUND entry; balances stay equal to ledger totals |
| Bookings.CancelTwice | src/bookings/bookings.service.ts:97-141 | after a successful cancellation a second one is refused, and at most one ledger entry is written in total |
| Providers.ProviderOfUser | src/service-provider/service-provider.service.ts:35-37 | returns the first provider of the user, and none exactly when the user has no provider |
| Providers.ProviderLogin | src/service-provider/service-provider.service.ts:81-100 | a code other than 123456 is refused; an unknown number is NotFound; otherwise the login is the first provider of the user with that number, if any |
| Providers.PendingJobs | src/service-provider/service-provider.service.ts:229-234 | exactly the PENDING jobs, in id order, whoever asks |
| Providers.ProviderEarnings | src/service-provider/service-provider.service.ts:327-335 | the job count is the number of the provider's COMPLETED jobs, and the earnings are 500 per job |
| Providers.CompletingRaisesEarnings | src/service-provider/service-provider.service.ts:283-290 | completing a job of the provider that was not COMPLETED raises its job count by one and its earnings by 500 |
| Providers.CompletingOtherKeepsEarnings | src/service-provider/service-provider.service.ts:283-290 | completing a job of another provider, or one already COMPLETED, leaves the earnings unchanged |
| Providers.ProviderService.CreateProvider | src/service-provider/service-provider.service.ts:43-75 | adds a PENDING provider for the user, its profile with the given categories, a zero-balance wallet and an offline availability; the user then has a provider |
| Providers.ProviderService.Register | src/service-provider/service-provider.service.ts:17-79 | finds or creates the user; reports an existing provider without writing anything, or creates the provider with profile, wallet and availability; either way the number then leads to the returned provider |
| Providers.ProviderService.ToggleAvailability | src/service-provider/service-provider.service.ts:210-227 | without an availability record it is NotFound and nothing changes; otherwise the first record's online flag is flipped and stamped, and the new flag is returned |
| Providers.ProviderService.AcceptJob | src/service-provider/service-provider.service.ts:236-255 | refuses an unknown provider, a provider whose KYC is not APPROVED, an unknown job or a job that is not PENDING, in that order and with nothing changed; otherwise the job becomes ACCEPTED and is assigned to the provider |
| Providers.ProviderService.SetJobStatus | src/service-provider/service-provider.service.ts:257-281 | an unknown job is an error; otherwise only that job's status changes |
| Providers.ProviderService.RejectJob | src/service-provider/service-provider.service.ts:257-262 | an unknown job is an error; otherwise the job becomes REJECTED, from any status |
| Providers.ProviderService.MarkArrival | src/service-provider/service-provider.service.ts:266-271 | an unknown job is an error; otherwise the job becomes ARRIVED, from any status |
| Providers.ProviderService.StartJob | src/service-provider/service-provider.service.ts:273-281 | an unknown job is an error; otherwise the job becomes IN_PROGRESS with its start time |
| Providers.ProviderService.CompleteJob | src/service-provider/service-provider.service.ts:283-304 | an unknown job is an error; otherwise the job becomes COMPLETED with its end time, and the caller's first wallet, if any, gains 500 with no other wallet touched; no wallet is overdrawn |
| Providers.ProviderService.UpdateLocation | src/service-provider/service-provider.service.ts:306-323 | records one ping against the provider's first IN_PROGRESS job, nothing without such a job, and always answers "Location updated" |
| Providers.ProviderService.RequestPayout | src/service-provider/service-provider.service.ts:344-362 | refused, with nothing changed, exactly when the provider has no wallet or its balance is below the amount; otherwise the balance drops by the amount, stays non-negative, and one REQUESTED payout is recorded |
| Providers.RegisterTwice | src/service-provider/service-provider.service.ts:35-41 | registering the same number twice reports the provider of the first registration as already registered |
| Providers.AcceptTwice | src/service-provider/service-provider.service.ts:244-254 | once a job is accepted, a second accept, by any provider, is refused, and with "already taken" when that provider is KYC-approved |
| Providers.ToggleTwice | src/service-provider/service-provider.service.ts:210-227 | two toggles succeed or fail together, return opposite flags, and restore every online flag |
| Customers.CustomerOfUser | src/customer/customer.service.ts:33-35 | returns the first customer of the user, and none exactly when the user has no customer |
| Customers.CustomerLogin | src/customer/customer.service.ts:58-73 | succeeds exactly when the code is 1234 and the number belongs to a user with a customer, and then returns that user's customer; a wrong code is BadRequest and otherwise NotFound |
| Customers.ProfileOf | src/customer/customer.service.ts:89-97 | returns the customer's first profile, and none exactly when the customer has no profile |
| Customers.AddNew | src/customer/customer.service.ts:186-191 | adding names keeps the list free of duplicates and makes it hold exactly the old names and the new ones |
| Customers.OfferedBelow | src/customer/customer.service.ts:173-191 | without duplicates, exactly the services of the profiles (below a bound) whose provider serves the city |
| Customers.OfferedIn | src/customer/customer.service.ts:173-191 | without duplicates, exactly the services of every profile whose provider is onboarded, KYC-approved, in the city and online |
| Customers.GetCategories | src/customer/customer.service.ts:168-201 | without a city, exactly the active categories; with one, exactly the active categories that some provider serving the city offers; in id order |
| Customers.CityNarrowsCategories | src/customer/customer.service.ts:168-201 | a category shown for a city is also shown without a city |
| Customers.OfferedCategoryShown | src/customer/customer.service.ts:168-201 | an active category offered by a provider serving the city is shown for the city |
| Customers.RateProvider | src/customer/customer.service.ts:318-377 | an unknown booking is NotFound; a booking that is not COMPLETED is BadRequest; otherwise the rating is accepted, and the answer is "(mock)" exactly when the booking's provider is not on record |
| Customers.CustomerService.CreateCustomer | src/customer/customer.service.ts:37-51 | adds an ACTIVE customer with the 100-point welcome bonus and a wallet for it |
| Customers.CustomerService.Register | src/customer/customer.service.ts:17-56 | finds or creates the user and the customer, named "Guest" when no name is given; the fixed code then logs the number in as the returned customer |
| Customers.CustomerService.UpdateProfile | src/customer/customer.service.ts:88-119 | an unknown customer is NotFound; a non-empty name renames the customer; the first profile is patched, or a profile is created from the given fields |
| Customers.CustomerService.AddAddress | src/customer/customer.service.ts:121-128 | adds exactly one address with the given fields for the customer |
| Customers.CustomerService.UpdateAddress | src/customer/customer.service.ts:136-146 | an address the customer does not own is NotFound and nothing changes; otherwise only that address takes the new fields |
| Customers.CustomerService.DeleteAddress | src/customer/customer.service.ts:148-157 | an address the customer does not own is NotFound and nothing changes; otherwise only that address is removed |
| Customers.CustomerService.DeactivateAccount | src/customer/customer.service.ts:159-164 | an unknown customer is an error; otherwise only that customer's status becomes DEACTIVATED |
| Customers.CustomerService.CreateBooking | src/customer/customer.service.ts:230-243 | a missing provider is BadRequest with nothing written; otherwise exactly one PENDING booking for the customer and provider is added |
| Customers.CustomerService.CancelBooking | src/customer/customer.service.ts:264-276 | a booking the customer does not own is NotFound, a COMPLETED or CANCELLED one is BadRequest, both with nothing changed; otherwise only its status becomes CANCELLED |
| Customers.CustomerService.InitiatePayment | src/customer/customer.service.ts:290-302 | an unknown booking is NotFound; otherwise one COMPLETED payment of the amount is recorded for it, whoever owns it |
| Customers.RegisterTwice | src/customer/customer.service.ts:17-56 | registering the same number twice, with any names, yields the same customer |
| Customers.CancelTwice | src/customer/customer.service.ts:264-276 | after a successful cancellation a second one is refused as already cancelled, and a refused cancellation is refused again in the same way |
| Admin.GetPendingKyc | src/admin/admin.service.ts:87-96 | lists every PENDING KYC record exactly once, and nothing else, oldest first |
| Admin.GetWalletLedger | src/admin/admin.service.ts:262-270 | an unknown wallet is NotFound; otherwise every entry of its ledger exactly once, and nothing else, newest first |
| Admin.LedgerViewSumsToBalance | src/admin/admin.service.ts:262-270 | in a balanced store, the entries the ledger view lists add up to the wallet's balance |
| Admin.GetDashboardStats | src/admin/admin.service.ts:303-325 | the user and booking totals are the table sizes; the active users are the users whose status, with the schema default filled in for an unset one, is ACTIVE, the pending bookings are the PENDING ones, and neither exceeds its total; the revenue is the sum of every booking's amount, 0 without bookings |
| Admin.RevenueIgnoresStatus | src/admin/admin.service.ts:303-325 | changing a booking's status, cancelling included, never changes the revenue |
| Admin.NewUserCounted | src/admin/admin.service.ts:303-313 | a new user adds one user, and one active user exactly when its status, or the default for an unset one, is ACTIVE |
| Admin.NewBookingCounted | src/admin/admin.service.ts:303-325 | a new booking adds one booking, its amount to the revenue, and one pending booking exactly when it is PENDING |
| Admin.AdminService.UpdateUserStatus | src/admin/admin.service.ts:34-64 | an unknown user is NotFound with nothing written; otherwise only the user's status changes, an audit entry is added when the audit write succeeds, and every phone lookup is unchanged |
| Admin.AdminService.UpdateKycStatus | src/admin/admin.service.ts:112-140 | an unknown KYC record is NotFound with nothing written; otherwise only the record's status changes, with an audit entry when the audit write succeeds; no provider's KYC status changes |
| Admin.AdminService.UpdateBookingStatus | src/admin/admin.service.ts:173-213 | an unknown booking is NotFound with nothing written; otherwise the booking takes the new status whatever happens to the trail, the override row is written unless it fails, and the audit entry only when nothing failed before it |

## Left out

- Controllers, guards and DTO classes are not part of this model. No validation pipe is installed, so any request field may be missing; the model expresses a missing field only for the auth code and the customer booking's provider id.
- Operations of the services that are read-only plumbing are not modelled:
  - customer: getProfile, getAddresses, getNearbyProviders, getEstimate, getBookingDetails, getBookings, getTracking, getPaymentHistory;
  - provider: getProfile, updateProfile, completeOnboarding, uploadKyc, getKycStatus, getWallet, getRatings, getPerformance;
  - admin: findAllUsers, getUserHistory, getKycDetails, getBookings, getBookingDetails, pricing and surge rules, getWallets, settlements, analytics.
- Support tickets (customer raiseTicket, provider raiseSupportTicket) are not modelled. They write one free-text row and have no logic.
- Auth verifyFirebaseToken and login are not modelled. They call Firebase and sign JWTs; token strings are left out everywhere.
- Randomness is not modelled. The mock coordinates that tracking makes up with `Math.random` become a `Synthesized(now)` position, which records only its timestamp.
- The clock is a `now: Time` parameter of every operation that stamps a row.
- Money is `int`. The decimal amounts and balances of the schema are modelled as whole numbers, so rounding is not modelled.
- Coordinates are `real`. Floating-point rounding is not modelled.
- Console logging is left out.
- Database transactions and concurrency are not modelled. Each method runs as one uninterrupted step, so the source's lack of a transaction around a refund and its booking update, and races between two accepts, are not visible.
- Database errors other than a missing row are not modelled: foreign-key and unique-constraint violations raised by the database never happen in the model.
- Whether an audit or override write succeeds is a parameter (`auditWrites`, `LogFailure`), not derived from the store. The source catches that error and logs it.
- Query results carry ids and rows, not the related rows that `include` joins in.
- `findFirst` without `orderBy`, and `customerProfiles[0]`/`serviceProviders[0]`, are modelled as the row with the smallest id. The database's own order is unspecified.
- Admin.GetDashboardStats: the schema default of a user's status is a parameter, because the schema is not part of this model; the ACTIVE count is exact for every choice of default.
- Auth.AuthService.VerifyOtp: a request without a mobile number is not modelled; the number is always a string.
- Customers.GetCategories: the order of the de-duplicated service names is not modelled, only their membership. The result depends only on membership.
- Customers.RateProvider: the provider's rating update is a mock that writes nothing in the source, so the model states only the reply.
- Customers.CustomerService.CreateBooking: the request's provider id is `Option<Id>`, so the source's empty-string id is the `None` case. The unused service item id is left out.
