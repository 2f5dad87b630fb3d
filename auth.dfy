/** The sign-up and sign-in helpers (lib/auth.ts): how a profile record is
    built from a registration form or a Google display name, and how the
    outcomes of the authentication and database calls, given here as inputs,
    decide each helper's result. */
module Auth {
  import opened Wrappers
  import opened Text

  /** A signed-in account as the authentication service returns it. */
  datatype AuthUser = AuthUser(uid: string, displayName: Option<string>)

  /** `createdAt`: the server-timestamp placeholder a new profile is written
      with, or the value a stored profile carries. */
  datatype CreatedAt = ServerTimestamp | StoredTime(seconds: int)

  datatype UserProfile = UserProfile(
    userId: string,
    username: string,
    forename: string,
    surname: string,
    organisation: string,
    createdAt: CreatedAt,
    myAssets: seq<string>)

  /** The registration form; the organisation may be left out. */
  datatype RegistrationData = RegistrationData(forename: string, surname: string, organisation: Option<string>)

  /** What reading a profile document gave. */
  datatype ProfileRead = Exists(profile: UserProfile) | NoDocument | ReadError(message: string)

  /** A successful sign-in: the account and its profile, if any. */
  datatype SignedIn = SignedIn(user: AuthUser, profile: Option<UserProfile>)

  /** A helper's result together with the profile it asked to write. */
  datatype AuthOutcome = AuthOutcome(result: Result<SignedIn>, written: Option<UserProfile>)

  // ---------------------------------------------------------------------
  // usernames

  /** `Math.floor(random * 1000)` for `random` in [0, 1). */
  function RandomSuffix(random: real): (k: nat)
    requires 0.0 <= random < 1.0
    ensures k < 1000
    ensures k as real <= random * 1000.0 < k as real + 1.0
  {
    (random * 1000.0).Floor
  }

  /** `u` is the lower-cased names followed by a number below 1000. */
  predicate IsUsernameFor(u: string, forename: string, surname: string) {
    exists k: nat :: k < 1000 && u == Lower(forename) + Lower(surname) + NatToString(k)
  }

  /** `generateUsername`: the lower-cased forename and surname, then one to
      three decimal digits. */
  function GenerateUsername(forename: string, surname: string, random: real): (u: string)
    requires 0.0 <= random < 1.0
    ensures IsUsernameFor(u, forename, surname)
    ensures |forename| + |surname| < |u| <= |forename| + |surname| + 3
    ensures u[..|forename| + |surname|] == Lower(forename) + Lower(surname)
    ensures AllDigits(u[|forename| + |surname|..])
  {
    var k := RandomSuffix(random);
    NatToStringWidth(k);
    var u := Lower(forename) + Lower(surname) + NatToString(k);
    assert u[|forename| + |surname|..] == NatToString(k);
    u
  }

  /** The digits after the names read back as the random number. */
  lemma UsernameSuffixReadsBack(forename: string, surname: string, random: real)
    requires 0.0 <= random < 1.0
    ensures ParseInt(GenerateUsername(forename, surname, random)[|forename| + |surname|..]) == Some(RandomSuffix(random))
  {
    var k := RandomSuffix(random);
    var u := GenerateUsername(forename, surname, random);
    assert u[|forename| + |surname|..] == NatToString(k) + "";
    ParseIntOfNatToString(k, "");
  }

  // ---------------------------------------------------------------------
  // profile reads

  /** `getUserProfile`: the stored profile, or none both when there is no
      document and when the read fails; it never fails itself. */
  function GetUserProfile(read: ProfileRead): (p: Option<UserProfile>)
    ensures p.Some? <==> read.Exists?
    ensures p.Some? ==> p.value == read.profile
  {
    match read
    case Exists(profile) => Some(profile)
    case NoDocument => None
    case ReadError(_) => None
  }

  // ---------------------------------------------------------------------
  // email registration and login

  /** `userData.organisation || 'Individual'`. */
  function OrganisationOrDefault(o: Option<string>): (s: string)
    ensures o.Some? && o.value != "" ==> s == o.value
    ensures o.None? || o.value == "" ==> s == "Individual"
  {
    if o.None? || o.value == "" then "Individual" else o.value
  }

  /** The profile a registration writes. */
  function RegistrationProfile(uid: string, data: RegistrationData, random: real): (p: UserProfile)
    requires 0.0 <= random < 1.0
    ensures p.userId == uid && p.forename == data.forename && p.surname == data.surname
    ensures IsUsernameFor(p.username, data.forename, data.surname)
    ensures p.organisation == OrganisationOrDefault(data.organisation)
    ensures p.createdAt == ServerTimestamp && p.myAssets == []
  {
    UserProfile(uid, GenerateUsername(data.forename, data.surname, random), data.forename, data.surname,
                OrganisationOrDefault(data.organisation), ServerTimestamp, [])
  }

  /** `registerWithEmail`, given the outcomes of creating the account and of
      writing the profile. Either failure is reported with its own message;
      the profile is written under the new account's id. */
  function RegisterWithEmail(create: Result<AuthUser>, data: RegistrationData, random: real, write: Outcome): (o: AuthOutcome)
    requires 0.0 <= random < 1.0
    ensures create.Failure? ==> o.result == Failure(create.error) && o.written.None?
    ensures create.Success? ==>
      o.written == Some(RegistrationProfile(create.value.uid, data, random))
    ensures create.Success? && write.Fail? ==> o.result == Failure(write.error)
    ensures create.Success? && write.Pass? ==> o.result == Success(SignedIn(create.value, o.written))
  {
    match create
    case Failure(e) => AuthOutcome(Failure(e), None)
    case Success(user) =>
      var profile := RegistrationProfile(user.uid, data, random);
      match write
      case Fail(e) => AuthOutcome(Failure(e), Some(profile))
      case Pass => AuthOutcome(Success(SignedIn(user, Some(profile))), Some(profile))
  }

  /** `loginWithEmail`: only the sign-in itself can fail; a missing or
      unreadable profile signs in without one. */
  function LoginWithEmail(signIn: Result<AuthUser>, read: ProfileRead): (r: Result<SignedIn>)
    ensures r.Failure? <==> signIn.Failure?
    ensures signIn.Failure? ==> r.error == signIn.error
    ensures r.Success? ==> r.value.user == signIn.value
    ensures r.Success? ==> (r.value.profile.Some? <==> read.Exists?)
    ensures r.Success? && read.Exists? ==> r.value.profile == Some(read.profile)
  {
    match signIn
    case Failure(e) => Failure(e)
    case Success(user) => Success(SignedIn(user, GetUserProfile(read)))
  }

  // ---------------------------------------------------------------------
  // Google sign-in

  lemma NoSpaceInPiece(p: string)
    requires !Includes(p, " ")
    ensures ' ' !in p
  {
    if ' ' in p {
      var j :| 0 <= j < |p| && p[j] == ' ';
      assert OccursAt(p, " ", j);
    }
  }

  /** `displayName?.split(' ')[0] || 'User'`: the first word, or "User" when
      there is no name or it starts with a space. */
  function GoogleForename(displayName: Option<string>): (f: string)
    ensures f != "" && ' ' !in f
    ensures displayName.Some? && Split(displayName.value, " ")[0] != "" ==> f == Split(displayName.value, " ")[0]
    ensures displayName.None? || Split(displayName.value, " ")[0] == "" ==> f == "User"
  {
    if displayName.None? then "User"
    else
      var first := Split(displayName.value, " ")[0];
      SplitPiecesFree(displayName.value, " ");
      NoSpaceInPiece(first);
      if first == "" then "User" else first
  }

  /** `displayName?.split(' ')[1] || ''`: the second word, or nothing. */
  function GoogleSurname(displayName: Option<string>): (s: string)
    ensures ' ' !in s
    ensures displayName.Some? && |Split(displayName.value, " ")| > 1 ==> s == Split(displayName.value, " ")[1]
    ensures displayName.None? || |Split(displayName.value, " ")| == 1 ==> s == ""
  {
    if displayName.None? then ""
    else
      var parts := Split(displayName.value, " ");
      if |parts| > 1 then
        SplitPiecesFree(displayName.value, " ");
        assert parts[1] in parts;
        NoSpaceInPiece(parts[1]);
        parts[1]
      else ""
  }

  /** A display name of two words separated by one space gives those two
      words as forename and surname. */
  lemma GoogleNamesOfTwoWords(first: string, last: string)
    requires first != "" && ' ' !in first && ' ' !in last
    ensures GoogleForename(Some(first + " " + last)) == first
    ensures GoogleSurname(Some(first + " " + last)) == last
  {
    SplitAfterPrefix(first, " ", last);
    SplitWithoutSeparator(last, " ");
  }

  /** A display name of one word gives that word and an empty surname. */
  lemma GoogleNamesOfOneWord(name: string)
    requires name != "" && ' ' !in name
    ensures GoogleForename(Some(name)) == name
    ensures GoogleSurname(Some(name)) == ""
  {
    SplitWithoutSeparator(name, " ");
  }

  /** Only the first two words count: a middle name becomes the surname and
      the rest is dropped. */
  lemma GoogleNamesOfLongerName(first: string, second: string, rest: string)
    requires first != "" && ' ' !in first && ' ' !in second
    ensures GoogleForename(Some(first + " " + second + " " + rest)) == first
    ensures GoogleSurname(Some(first + " " + second + " " + rest)) == second
  {
    assert first + " " + second + " " + rest == first + " " + (second + " " + rest);
    SplitAfterPrefix(first, " ", second + " " + rest);
    SplitAfterPrefix(second, " ", rest);
  }

  /** The profile a first Google sign-in writes. */
  function GoogleProfile(user: AuthUser, random: real): (p: UserProfile)
    requires 0.0 <= random < 1.0
    ensures p.userId == user.uid
    ensures p.forename == GoogleForename(user.displayName) && p.surname == GoogleSurname(user.displayName)
    ensures IsUsernameFor(p.username, p.forename, p.surname)
    ensures p.organisation == "Individual" && p.createdAt == ServerTimestamp && p.myAssets == []
  {
    var f := GoogleForename(user.displayName);
    var s := GoogleSurname(user.displayName);
    UserProfile(user.uid, GenerateUsername(f, s, random), f, s, "Individual", ServerTimestamp, [])
  }

  /** `signInWithGoogle`, given the popup's outcome, the profile read and
      the profile write. A profile that already exists is returned as it is
      and nothing is written; otherwise a new profile is written, and a
      failed write fails the sign-in with its message. */
  function SignInWithGoogle(popup: Result<AuthUser>, read: ProfileRead, random: real, write: Outcome): (o: AuthOutcome)
    requires 0.0 <= random < 1.0
    ensures popup.Failure? ==> o.result == Failure(popup.error) && o.written.None?
    ensures popup.Success? && read.Exists? ==>
      o.written.None? && o.result == Success(SignedIn(popup.value, Some(read.profile)))
    ensures popup.Success? && !read.Exists? ==> o.written == Some(GoogleProfile(popup.value, random))
    ensures popup.Success? && !read.Exists? && write.Fail? ==> o.result == Failure(write.error)
    ensures popup.Success? && !read.Exists? && write.Pass? ==> o.result == Success(SignedIn(popup.value, o.written))
  {
    match popup
    case Failure(e) => AuthOutcome(Failure(e), None)
    case Success(user) =>
      match GetUserProfile(read)
      case Some(existing) => AuthOutcome(Success(SignedIn(user, Some(existing))), None)
      case None =>
        var profile := GoogleProfile(user, random);
        match write
        case Fail(e) => AuthOutcome(Failure(e), Some(profile))
        case Pass => AuthOutcome(Success(SignedIn(user, Some(profile))), Some(profile))
  }

  /** Every successful sign-in carries a profile, except an email login
      whose profile is missing or unreadable. */
  lemma SignInsCarryProfiles(create: Result<AuthUser>, data: RegistrationData, popup: Result<AuthUser>,
                             read: ProfileRead, random: real, write: Outcome)
    requires 0.0 <= random < 1.0
    ensures RegisterWithEmail(create, data, random, write).result.Success? ==>
      RegisterWithEmail(create, data, random, write).result.value.profile.Some?
    ensures SignInWithGoogle(popup, read, random, write).result.Success? ==>
      SignInWithGoogle(popup, read, random, write).result.value.profile.Some?
  {
  }

  /** `logOut`: a failed sign-out is reported with its own message. */
  function LogOut(signOut: Outcome): (r: Outcome)
    ensures r.Fail? <==> signOut.Fail?
    ensures r.Fail? ==> r.error == signOut.error
  {
    match signOut
    case Pass => Pass
    case Fail(e) => Fail(e)
  }
}
