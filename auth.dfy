/** The phone-number login flow with one-time codes kept in memory. */
module Auth {
  import opened Prelude
  import opened Tables
  import opened Store
  import opened Users

  /** The code every request is sent, and which is also accepted for any number. */
  const MockOtp := "1234"

  /** The code stored for a number; `None` when there is none. */
  function StoredOtp(otpStore: map<string, string>, mobileNumber: string): Option<string> {
    if mobileNumber in otpStore then Some(otpStore[mobileNumber]) else None
  }

  /**
   * A code is accepted when it equals the one stored for the number, or is
   * the universal code. A request may carry no code at all (`None`); it then
   * equals the stored code exactly when none is stored.
   */
  predicate OtpAccepted(otpStore: map<string, string>, mobileNumber: string, otp: Option<string>) {
    StoredOtp(otpStore, mobileNumber) == otp || otp == Some(MockOtp)
  }

  /** A request without a code is accepted exactly for a number that has no stored code. */
  lemma MissingCodeAccepted(otpStore: map<string, string>, mobileNumber: string)
    ensures OtpAccepted(otpStore, mobileNumber, None) <==> mobileNumber !in otpStore
  {
  }

  /**
   * Once a code has been used it is gone: only the universal code, or a
   * request without a code, logs the number in again.
   */
  lemma UsedCodeIsSpent(otpStore: map<string, string>, mobileNumber: string, otp: Option<string>)
    ensures OtpAccepted(otpStore - {mobileNumber}, mobileNumber, otp) <==> otp == Some(MockOtp) || otp.None?
  {
  }

  /** Right after a code is sent, exactly the universal code is accepted for that number. */
  lemma SentCodeAccepted(otpStore: map<string, string>, mobileNumber: string, otp: Option<string>)
    ensures OtpAccepted(otpStore[mobileNumber := MockOtp], mobileNumber, otp) <==> otp == Some(MockOtp)
  {
  }

  class AuthService {
    var otpStore: map<string, string>
    const usersService: UsersService

    constructor (usersService: UsersService)
      ensures this.usersService == usersService
      ensures otpStore == map[]
    {
      this.usersService := usersService;
      otpStore := map[];
    }

    /** Stores the code for the number; an empty number is refused. */
    method SendOtp(mobileNumber: string) returns (r: Result<()>)
      modifies this`otpStore
      ensures mobileNumber == "" ==> r == Err(BadRequest("Mobile number is required")) && otpStore == old(otpStore)
      ensures mobileNumber != "" ==> r == Ok(()) && otpStore == old(otpStore)[mobileNumber := MockOtp]
    {
      if mobileNumber == "" {
        return Err(BadRequest("Mobile number is required"));
      }
      otpStore := otpStore[mobileNumber := MockOtp];
      return Ok(());
    }

    /**
     * Checks the code, which the request may omit; on success removes the stored code and returns the
     * user with that number, creating the user if there is none.
     */
    method VerifyOtp(mobileNumber: string, otp: Option<string>) returns (r: Result<Id>)
      requires usersService.db.Valid()
      modifies this`otpStore, usersService.db`users
      ensures usersService.db.Valid()
      ensures r.Ok? <==> old(OtpAccepted(otpStore, mobileNumber, otp))
      ensures r.Err? ==> r.error == Unauthorized("Invalid OTP")
      ensures r.Err? ==> otpStore == old(otpStore) && usersService.db.users == old(usersService.db.users)
      ensures r.Ok? ==> otpStore == old(otpStore) - {mobileNumber}
      ensures r.Ok? ==> UserByPhone(usersService.db.users, mobileNumber) == Some(r.value)
      ensures r.Ok? && old(UserByPhone(usersService.db.users, mobileNumber)).Some? ==>
        r.value == old(UserByPhone(usersService.db.users, mobileNumber)).value
        && usersService.db.users == old(usersService.db.users)
      ensures r.Ok? && old(UserByPhone(usersService.db.users, mobileNumber)).None? ==>
        (usersService.db.users, r.value) == Insert(old(usersService.db.users), User(mobileNumber, None, None, None))
    {
      if !OtpAccepted(otpStore, mobileNumber, otp) {
        return Err(Unauthorized("Invalid OTP"));
      }
      otpStore := otpStore - {mobileNumber};
      var user := usersService.FindOrCreate(mobileNumber);
      return Ok(user);
    }
  }
}
