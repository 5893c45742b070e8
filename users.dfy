/** The users service: users looked up by phone number, and their wallets. */
module Users {
  import opened Prelude
  import opened Tables
  import opened Store

  function HasPhone(phoneNumber: string): (Id, User) -> bool {
    (_, u: User) => u.phoneNumber == phoneNumber
  }

  /** `user.findUnique({ where: { phoneNumber } })`. */
  function UserByPhone(users: Table<User>, phoneNumber: string): (r: Option<Id>)
    ensures r.Some? ==> r.value in users.rows && users.rows[r.value].phoneNumber == phoneNumber
    ensures r.None? <==> forall k :: k in users.rows ==> users.rows[k].phoneNumber != phoneNumber
  {
    FindFirst(users, HasPhone(phoneNumber))
  }

  /** Because phone numbers are unique, the lookup finds THE user with that number. */
  lemma UserByPhoneFinds(users: Table<User>, k: Id)
    requires PhonesUnique(users)
    requires k in users.rows
    ensures UserByPhone(users, users.rows[k].phoneNumber) == Some(k)
  {
    var found := UserByPhone(users, users.rows[k].phoneNumber);
    assert found.Some?;
  }

  /** Adding a user whose number is not yet taken keeps the numbers unique and makes the number find it. */
  lemma AddUserKeepsPhonesUnique(users: Table<User>, u: User)
    requires PhonesUnique(users)
    requires UserByPhone(users, u.phoneNumber).None?
    ensures var (users', id) := Insert(users, u);
      PhonesUnique(users') && UserByPhone(users', u.phoneNumber) == Some(id)
  {
    var (users', id) := Insert(users, u);
    UserByPhoneFinds(users', id);
  }

  function OwnedByUser(userId: Id): (Id, Wallet) -> bool {
    (_, w: Wallet) => w.userId == userId
  }

  /** `wallet.findFirst({ where: { user_id } })`. */
  function WalletOfUser(wallets: Table<Wallet>, userId: Id): (r: Option<Id>)
    ensures r.Some? ==> r.value in wallets.rows && wallets.rows[r.value].userId == userId
    ensures r.None? <==> forall k :: k in wallets.rows ==> wallets.rows[k].userId != userId
  {
    FindFirst(wallets, OwnedByUser(userId))
  }

  /** Rewriting a wallet without changing its owner leaves every user's wallet where it was. */
  lemma WalletOfUserUpdate(wallets: Table<Wallet>, w: Id, row: Wallet, userId: Id)
    requires w in wallets.rows && row.userId == wallets.rows[w].userId
    ensures WalletOfUser(Update(wallets, w, row), userId) == WalletOfUser(wallets, userId)
  {
    FindFirstAgree(wallets, Update(wallets, w, row), OwnedByUser(userId));
  }

  function LedgerCreatedAt(e: WalletLedger): Time {
    e.createdAt
  }

  /** The ledger entries of wallet `w`, newest first, each with its id. */
  function LedgerNewestFirst(ledger: Table<WalletLedger>, w: Id): (entries: seq<(Id, WalletLedger)>)
    ensures Lists(ledger, OfWallet(w), entries)
    ensures forall i, j :: 0 <= i < j < |entries| ==> entries[i].1.createdAt >= entries[j].1.createdAt
  {
    NewestFirst(ledger, OfWallet(w), LedgerCreatedAt)
  }

  /** A wallet no entry belongs to has an empty ledger. */
  lemma LedgerOfUnusedWallet(ledger: Table<WalletLedger>, w: Id)
    requires forall e :: e in ledger.rows ==> ledger.rows[e].walletId != w
    ensures LedgerNewestFirst(ledger, w) == []
  {
    var entries := LedgerNewestFirst(ledger, w);
    if entries != [] {
      assert false;
    }
  }

  /**
   * The find-or-create step every sign-up shares: the user with the number of
   * `newUser`, or `newUser` itself inserted when the number is not taken.
   */
  method FindOrCreateUser(db: Database, newUser: User) returns (user: Id)
    requires db.Valid()
    modifies db`users
    ensures db.Valid()
    ensures UserByPhone(db.users, newUser.phoneNumber) == Some(user)
    ensures old(UserByPhone(db.users, newUser.phoneNumber)).Some? ==>
      user == old(UserByPhone(db.users, newUser.phoneNumber)).value && db.users == old(db.users)
    ensures old(UserByPhone(db.users, newUser.phoneNumber)).None? ==>
      (db.users, user) == Insert(old(db.users), newUser)
  {
    var existing := UserByPhone(db.users, newUser.phoneNumber);
    if existing.Some? {
      return existing.value;
    }
    AddUserKeepsPhonesUnique(db.users, newUser);
    db.users, user := Insert(db.users, newUser).0, Insert(db.users, newUser).1;
  }

  class UsersService {
    const db: Database

    constructor (db: Database)
      ensures this.db == db
    {
      this.db := db;
    }

    /** Returns the user with that phone number, creating one if there is none. */
    method FindOrCreate(phoneNumber: string) returns (user: Id)
      requires db.Valid()
      modifies db`users
      ensures db.Valid()
      ensures UserByPhone(db.users, phoneNumber) == Some(user)
      ensures old(UserByPhone(db.users, phoneNumber)).Some? ==>
        user == old(UserByPhone(db.users, phoneNumber)).value && db.users == old(db.users)
      ensures old(UserByPhone(db.users, phoneNumber)).None? ==>
        (db.users, user) == Insert(old(db.users), User(phoneNumber, None, None, None))
    {
      user := FindOrCreateUser(db, User(phoneNumber, None, None, None));
    }

    /**
     * Returns the user's wallet, creating an empty one if the user has none,
     * with its ledger entries newest first.
     */
    method GetWallet(userId: Id, now: Time) returns (wallet: Id, entries: seq<(Id, WalletLedger)>)
      requires db.Valid()
      modifies db`wallets
      ensures db.Valid()
      ensures WalletOfUser(db.wallets, userId) == Some(wallet)
      ensures old(WalletOfUser(db.wallets, userId)).Some? ==>
        wallet == old(WalletOfUser(db.wallets, userId)).value && db.wallets == old(db.wallets)
      ensures old(WalletOfUser(db.wallets, userId)).None? ==>
        (db.wallets, wallet) == Insert(old(db.wallets), Wallet(userId, 0, now)) && entries == []
      ensures entries == LedgerNewestFirst(db.walletLedgers, wallet)
    {
      var existing := WalletOfUser(db.wallets, userId);
      if existing.Some? {
        wallet := existing.value;
        entries := LedgerNewestFirst(db.walletLedgers, wallet);
      } else {
        var newWallet := Wallet(userId, 0, now);
        OpenWalletKeepsBalance(db.wallets, db.walletLedgers, userId, now);
        LedgerOfUnusedWallet(db.walletLedgers, Insert(db.wallets, newWallet).1);
        db.wallets, wallet := Insert(db.wallets, newWallet).0, Insert(db.wallets, newWallet).1;
        entries := [];
      }
    }
  }

  /** Calling findOrCreate twice with one number yields one user and creates at most one row. */
  method FindOrCreateTwice(users: UsersService, phoneNumber: string) returns (first: Id, second: Id)
    requires users.db.Valid()
    modifies users.db`users
    ensures users.db.Valid()
    ensures first == second
    ensures |users.db.users.rows.Keys - old(users.db.users.rows.Keys)| <= 1
  {
    first := users.FindOrCreate(phoneNumber);
    ghost var afterFirst := users.db.users;
    second := users.FindOrCreate(phoneNumber);
    assert users.db.users == afterFirst;
  }
}
