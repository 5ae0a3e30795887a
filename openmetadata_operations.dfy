/** Decision rules of the `openmetadata-ops` command line: which inputs
    `create-user` rejects and how it splits the email, the `install-app`
    decision, the e-mail settings' enum fallbacks, the `--entities` argument,
    the backfill configuration, and the exit code of a reindex run. Reading
    the configuration, the database and the clock are inputs here. */
module OpenMetadataOperations {
  import opened Wrappers
  import opened JavaStrings

  // ---------------------------------------------------------------------
  // create-user

  /** `[A-Za-z0-9._%+-]`, the characters allowed before the `@`. */
  predicate IsLocalChar(c: char)
  {
    'A' <= c <= 'Z' || 'a' <= c <= 'z' || '0' <= c <= '9' || c in "._%+-"
  }

  /** `[A-Za-z0-9.-]`, the characters allowed in the domain. */
  predicate IsDomainChar(c: char)
  {
    'A' <= c <= 'Z' || 'a' <= c <= 'z' || '0' <= c <= '9' || c == '.' || c == '-'
  }

  predicate IsLetter(c: char)
  {
    'A' <= c <= 'Z' || 'a' <= c <= 'z'
  }

  predicate AllLocal(s: string) { forall i :: 0 <= i < |s| ==> IsLocalChar(s[i]) }
  predicate AllDomain(s: string) { forall i :: 0 <= i < |s| ==> IsDomainChar(s[i]) }
  predicate AllLetters(s: string) { forall i :: 0 <= i < |s| ==> IsLetter(s[i]) }

  /** One way the pattern `^[A-Za-z0-9._%+-]+@[A-Za-z0-9.-]+\.[A-Za-z]{2,}$`
      can match: the `@` at `at` and the final dot at `dot`. */
  predicate EmailMatchAt(email: string, at: int, dot: int)
  {
    0 < at && at + 1 < dot < |email|
    && email[at] == '@' && email[dot] == '.'
    && AllLocal(email[..at]) && AllDomain(email[at + 1..dot])
    && |email| - (dot + 1) >= 2 && AllLetters(email[dot + 1..])
  }

  /** `email.matches(pattern)`, read off the pattern. */
  predicate MatchesEmailPattern(email: string)
  {
    exists at, dot | 0 <= at < |email| && 0 <= dot < |email| :: EmailMatchAt(email, at, dot)
  }

  /** The last position of `c` in `s`. */
  function LastIndexOf(s: string, c: char): (r: Option<nat>)
    ensures r.None? <==> c !in s
    ensures r.Some? ==> r.value < |s| && s[r.value] == c && c !in s[r.value + 1..]
  {
    if s == [] then None
    else if s[|s| - 1] == c then Some(|s| - 1)
    else
      match LastIndexOf(s[..|s| - 1], c)
      case None => None
      case Some(i) =>
        assert s[i + 1..] == s[..|s| - 1][i + 1..] + [s[|s| - 1]];
        Some(i)
  }

  /** The domain part after the `@`: domain characters, a last dot after at
      least one of them, and at least two letters after that dot. */
  predicate IsEmailDomain(t: string)
  {
    AllDomain(t)
    && match LastIndexOf(t, '.')
       case None => false
       case Some(k) => k >= 1 && |t| - (k + 1) >= 2 && AllLetters(t[k + 1..])
  }

  /** The check `createUser` runs on the email, as a scan. */
  predicate IsValidEmail(email: string)
  {
    match IndexOf(email, '@')
    case None => false
    case Some(at) => at > 0 && AllLocal(email[..at]) && IsEmailDomain(email[at + 1..])
  }

  /** A scan result is a match of the pattern. */
  lemma ValidEmailMatches(email: string)
    requires IsValidEmail(email)
    ensures MatchesEmailPattern(email)
  {
    var at := IndexOf(email, '@').value;
    var t := email[at + 1..];
    var k := LastIndexOf(t, '.').value;
    var dot := at + 1 + k;
    assert email[at + 1..dot] == t[..k];
    assert email[dot + 1..] == t[k + 1..];
    assert EmailMatchAt(email, at, dot);
  }

  /** No local character is an `@`, so a match's `@` is the first one. */
  lemma MatchAtIsFirstAt(email: string, at: int, dot: int)
    requires EmailMatchAt(email, at, dot)
    ensures IndexOf(email, '@') == Some(at)
  {
    var local := email[..at];
    forall i | 0 <= i < |local| ensures local[i] != '@' {
      assert IsLocalChar(local[i]);
    }
  }

  /** No letter is a dot, so a match's final dot is the last one. */
  lemma MatchDotIsLastDot(t: string, k: int)
    requires 0 <= k < |t| && t[k] == '.' && AllLetters(t[k + 1..])
    ensures LastIndexOf(t, '.') == Some(k)
  {
    var tail := t[k + 1..];
    forall i | 0 <= i < |tail| ensures tail[i] != '.' {
      assert IsLetter(tail[i]);
    }
  }

  /** A match of the pattern passes the scan. */
  lemma MatchIsValidEmail(email: string, at: int, dot: int)
    requires EmailMatchAt(email, at, dot)
    ensures IsValidEmail(email)
  {
    MatchAtIsFirstAt(email, at, dot);
    var t := email[at + 1..];
    var k := dot - (at + 1);
    assert t[k + 1..] == email[dot + 1..];
    assert t[..k] == email[at + 1..dot];
    forall i | 0 <= i < |t| ensures IsDomainChar(t[i]) {
      if i < k {
        assert t[i] == t[..k][i];
      } else if i > k {
        assert t[i] == t[k + 1..][i - k - 1];
        assert IsLetter(t[k + 1..][i - k - 1]);
      }
    }
    MatchDotIsLastDot(t, k);
  }

  /** The scan accepts exactly the emails the pattern matches. */
  lemma ValidEmailIffPattern(email: string)
    ensures IsValidEmail(email) <==> MatchesEmailPattern(email)
  {
    if IsValidEmail(email) {
      ValidEmailMatches(email);
    }
    if MatchesEmailPattern(email) {
      var at, dot :| 0 <= at < |email| && 0 <= dot < |email| && EmailMatchAt(email, at, dot);
      MatchIsValidEmail(email, at, dot);
    }
  }

  datatype AuthProvider = Basic | Google | Okta | Auth0 | AzureAd | CustomOidc | Ldap | Saml | AwsCognito

  /** What `create-user` did: its exit code, whether it read the server
      configuration, and the user it created as (username, domain). */
  datatype CreateUserOutcome = CreateUserOutcome(exitCode: int, readConfig: bool, created: Option<(string, string)>)

  /** `createUser`. `provider` is the configured authentication provider, or
      None when reading the configuration throws; `userExists` is whether the
      email is already registered; `createFails` whether creating the user
      throws. An empty `password` stands for a null or empty one. */
  function CreateUser(email: Option<string>, password: string, provider: Option<AuthProvider>,
                      userExists: bool, createFails: bool): (o: CreateUserOutcome)
    ensures o.exitCode == 0 || o.exitCode == 1
    ensures password == "" ==> o == CreateUserOutcome(1, false, None)
    ensures (email.None? || !IsValidEmail(email.value)) ==> o == CreateUserOutcome(1, false, None)
    ensures o.created.Some? ==>
      email.Some? && IsValidEmail(email.value) && password != ""
      && o.created.value.0 + "@" + o.created.value.1 == email.value && '@' !in o.created.value.0
    ensures o.exitCode == 0 <==>
      password != "" && email.Some? && IsValidEmail(email.value)
      && provider == Some(Basic) && !userExists && !createFails
  {
    if password == "" then CreateUserOutcome(1, false, None)
    else if email.None? || !IsValidEmail(email.value) then CreateUserOutcome(1, false, None)
    else if provider.None? then CreateUserOutcome(1, true, None)
    else if provider.value != Basic then CreateUserOutcome(1, true, None)
    else if userExists then CreateUserOutcome(1, true, None)
    else
      var e := email.value;
      var at := IndexOf(e, '@').value;
      var domain := e[at + 1..];
      var username := e[..at];
      assert e == username + "@" + domain by {
        assert e == e[..at] + [e[at]] + e[at + 1..];
      }
      if createFails then CreateUserOutcome(1, true, None)
      else CreateUserOutcome(0, true, Some((username, domain)))
  }

  /** Stated against the email pattern: an email the pattern rejects is
      refused before the configuration is read, and a user is created only
      for an email the pattern accepts. */
  lemma CreateUserFollowsEmailPattern(email: Option<string>, password: string, provider: Option<AuthProvider>,
                                      userExists: bool, createFails: bool)
    ensures var o := CreateUser(email, password, provider, userExists, createFails);
      ((email.None? || !MatchesEmailPattern(email.value)) ==> o == CreateUserOutcome(1, false, None)) &&
      (o.exitCode == 0 <==>
        password != "" && email.Some? && MatchesEmailPattern(email.value)
        && provider == Some(Basic) && !userExists && !createFails)
  {
    if email.Some? {
      ValidEmailIffPattern(email.value);
    }
  }

  /** A created user's username is the text before the first `@` and its
      domain the text after it. */
  lemma CreatedUserSplitsAtFirstAt(email: string, password: string)
    requires password != "" && MatchesEmailPattern(email)
    ensures var o := CreateUser(Some(email), password, Some(Basic), false, false);
      o.exitCode == 0 && o.created.Some?
      && var at := IndexOf(email, '@').value;
         o.created.value == (email[..at], email[at + 1..])
  {
    ValidEmailIffPattern(email);
  }

  // ---------------------------------------------------------------------
  // install-app

  /** What `install-app` did. */
  datatype InstallOutcome = InstallOutcome(exitCode: int, deleted: bool, installed: bool)

  /** The three ends of `deleteApplication`: the app was deleted, it was not
      found (caught, `false`), or the delete threw something else. */
  datatype DeleteResult = AppDeleted | AppNotFound | DeleteThrows

  /** `installApp`: `alreadyInstalled` is the repository's answer for a
      non-deleted app, `delete` the end of `deleteApplication` when it is
      called, and the `...Fails` flags say which step throws. */
  function InstallApp(force: bool, configFails: bool, alreadyInstalled: bool,
                      delete: DeleteResult, installFails: bool): (o: InstallOutcome)
    ensures !force && alreadyInstalled && !configFails ==> o == InstallOutcome(0, false, false)
    ensures o.deleted <==> !configFails && force && delete == AppDeleted
    ensures o.exitCode == 0 <==>
      !configFails && ((!force && alreadyInstalled) || ((!force || delete != DeleteThrows) && !installFails))
    ensures o.exitCode != 0 ==> o.exitCode == 1
    ensures o.installed <==> o.exitCode == 0 && (force || !alreadyInstalled)
  {
    if configFails then InstallOutcome(1, false, false)
    else if !force && alreadyInstalled then InstallOutcome(0, false, false)
    else if force && delete == DeleteThrows then InstallOutcome(1, false, false)
    else
      var deleted := force && delete == AppDeleted;
      if installFails then InstallOutcome(1, deleted, false)
      else InstallOutcome(0, deleted, true)
  }

  // ---------------------------------------------------------------------
  // configure-email: enum arguments

  datatype TransportationStrategy = SMTP | SMTPS | SMTP_TLS
  datatype Templates = OPENMETADATA | COLLATE

  /** `TransportationStrategy.valueOf(s.toUpperCase())`, falling back to
      SMTP_TLS when no constant has that name. */
  function ParseTransportationStrategy(s: string): (t: TransportationStrategy)
    ensures t == SMTP <==> ToUpperCase(s) == "SMTP"
    ensures t == SMTPS <==> ToUpperCase(s) == "SMTPS"
    ensures t == SMTP_TLS <==> ToUpperCase(s) != "SMTP" && ToUpperCase(s) != "SMTPS"
  {
    var u := ToUpperCase(s);
    if u == "SMTP" then SMTP else if u == "SMTPS" then SMTPS else SMTP_TLS
  }

  /** `Templates.valueOf(s.toUpperCase())`, falling back to OPENMETADATA. */
  function ParseTemplates(s: string): (t: Templates)
    ensures t == COLLATE <==> ToUpperCase(s) == "COLLATE"
  {
    if ToUpperCase(s) == "COLLATE" then COLLATE
    else if ToUpperCase(s) == "OPENMETADATA" then OPENMETADATA
    else OPENMETADATA
  }

  /** An unrecognised strategy or template falls back, whatever its case. */
  lemma EnumFallbacks(s: string)
    requires ToUpperCase(s) !in ["SMTP", "SMTPS", "SMTP_TLS", "OPENMETADATA", "COLLATE"]
    ensures ParseTransportationStrategy(s) == SMTP_TLS
    ensures ParseTemplates(s) == OPENMETADATA
  {
  }

  /** The password stored in the settings: "" for a missing one. */
  function StoredPassword(password: Option<string>): (p: string)
    ensures password.Some? ==> p == password.value
    ensures password.None? ==> p == ""
  {
    if password.Some? then password.value else ""
  }

  // ---------------------------------------------------------------------
  // reindex: --entities

  /** The distinct strings of a sequence, as a Java `HashSet` holds them. */
  function Elements(parts: seq<string>): (r: set<string>)
    ensures forall p :: p in r <==> p in parts
  {
    set p | p in parts
  }

  /** The `--entities` argument: its first and last characters are removed
      and the rest is split on commas. A string shorter than two characters
      makes `substring` throw (None). */
  function ParseEntities(entityStr: string): (r: Option<set<string>>)
    ensures r.None? <==> |entityStr| < 2
    ensures r.Some? ==> r.value == Elements(Split(entityStr[1..|entityStr| - 1], ','))
  {
    if |entityStr| < 2 then None
    else Some(Elements(Split(entityStr[1..|entityStr| - 1], ',')))
  }

  /** Whatever the first and last characters are, they are dropped and the
      comma-separated names between them are selected. */
  lemma EntitiesBetweenFirstAndLast(first: char, last: char, names: seq<string>)
    requires |names| >= 1 && names[|names| - 1] != ""
    requires forall i :: 0 <= i < |names| ==> ',' !in names[i]
    ensures ParseEntities([first] + Join(names, ",") + [last]) == Some(Elements(names))
  {
    var inner := Join(names, ",");
    var s := [first] + inner + [last];
    assert s[1..|s| - 1] == inner;
    SplitAllJoin(names, ',');
    assert "," == [','];
    if ',' in inner {
      assert Split(inner, ',') == names;
    } else {
      assert SplitAll(inner, ',') == [inner];
    }
  }

  /** The default argument `'all'` selects the single entry `all`. */
  lemma DefaultEntitiesIsAll()
    ensures ParseEntities("'all'") == Some({"all"})
  {
    EntitiesBetweenFirstAndLast('\'', '\'', ["all"]);
    assert Join(["all"], ",") == "all";
    assert "'all'" == ['\''] + "all" + ['\''];
    assert Elements(["all"]) == {"all"};
  }

  /** Without quotes, the first and last letters of the list are lost. */
  lemma UnquotedEntityListLosesLetters()
    ensures ParseEntities("table,dashboard") == Some({"able", "dashboar"})
  {
    var s := ['t'] + ("able" + "," + "dashboar") + ['d'];
    assert s == "table,dashboard";
    TwoEntitiesBetweenFirstAndLast('t', 'd', "able", "dashboar");
  }

  /** The two-name case of the selection between the first and last characters. */
  lemma TwoEntitiesBetweenFirstAndLast(first: char, last: char, a: string, b: string)
    requires ',' !in a && ',' !in b && b != ""
    ensures ParseEntities([first] + (a + "," + b) + [last]) == Some({a, b})
  {
    var names := [a, b];
    assert Join(names[1..], ",") == b;
    EntitiesBetweenFirstAndLast(first, last, names);
    assert Elements(names) == {a, b};
  }

  // ---------------------------------------------------------------------
  // reindex-di: backfill configuration

  datatype BackfillConfiguration = BackfillConfiguration(enabled: bool, startDate: Option<string>, endDate: Option<string>)

  /** `getBackfillConfiguration`; `today` is the current date as yyyy-MM-dd. */
  function GetBackfillConfiguration(startDate: Option<string>, endDate: Option<string>, today: string)
    : (c: BackfillConfiguration)
    ensures startDate.None? ==> c == BackfillConfiguration(false, None, None)
    ensures startDate.Some? ==> c.enabled && c.startDate == startDate
    ensures startDate.Some? && endDate.Some? ==> c.endDate == endDate
    ensures startDate.Some? && endDate.None? ==> c.endDate == Some(today)
  {
    var c := BackfillConfiguration(false, None, None);
    if startDate.None? then c
    else c.(enabled := true, startDate := startDate, endDate := Some(endDate.GetOr(today)))
  }

  // ---------------------------------------------------------------------
  // reindex: waiting for the run

  datatype RunStatus = Started | Running | Completed | Failed | Active | ActiveError | Stopped | Success | Pending

  datatype AppRunRecord = AppRunRecord(status: RunStatus, executionTime: Option<int>)

  /** `isRunCompleted`: a record exists and has an execution time. */
  predicate IsRunCompleted(record: Option<AppRunRecord>)
  {
    record.Some? && record.value.executionTime.Some?
  }

  /** `getValueOrUnavailable`: "Unavailable" for a null or empty value of
      any type, otherwise its JSON form. `isEmpty` is `nullOrEmpty` on a
      non-null value. */
  function GetValueOrUnavailable<T>(value: Option<T>, isEmpty: T -> bool, pojoToJson: T -> string): (r: string)
    ensures value.None? || isEmpty(value.value) ==> r == "Unavailable"
    ensures value.Some? && !isEmpty(value.value) ==> r == pojoToJson(value.value)
  {
    if value.None? || isEmpty(value.value) then "Unavailable" else pojoToJson(value.value)
  }

  /** The exit code for the final status of a completed run. */
  function ExitCodeForStatus(status: RunStatus): (code: int)
    ensures code == 0 <==> status == RunStatus.Success || status == Completed
    ensures code == 0 || code == 1
  {
    if status == RunStatus.Success || status == Completed then 0 else 1
  }

  /** One poll of the latest run: the record it fetched (None for null), or
      an exception, which keeps the record of the previous poll. */
  datatype Poll = Fetched(record: Option<AppRunRecord>) | Threw

  /** The record held after the given polls. */
  function RecordAfter(polls: seq<Poll>): Option<AppRunRecord>
  {
    if polls == [] then None
    else match polls[|polls| - 1]
      case Fetched(r) => r
      case Threw => RecordAfter(polls[..|polls| - 1])
  }

  /** `waitAndReturnReindexingAppStatus` over a finite run of polls: the exit
      code once a poll shows a completed run, or None while the run is still
      going when the polls run out. */
  method WaitAndReturnReindexingAppStatus(polls: seq<Poll>) returns (code: Option<int>, used: nat)
    ensures code.Some? ==>
      0 < used <= |polls| && IsRunCompleted(RecordAfter(polls[..used]))
      && code.value == ExitCodeForStatus(RecordAfter(polls[..used]).value.status)
    ensures code.Some? || used == |polls|
    ensures forall n :: 0 <= n < used ==> !IsRunCompleted(RecordAfter(polls[..n]))
    ensures code.None? ==> forall n :: 0 <= n <= |polls| ==> !IsRunCompleted(RecordAfter(polls[..n]))
  {
    var record: Option<AppRunRecord> := None;
    used := 0;
    while used < |polls|
      invariant 0 <= used <= |polls|
      invariant record == RecordAfter(polls[..used])
      invariant forall n :: 0 <= n <= used ==> !IsRunCompleted(RecordAfter(polls[..n]))
      decreases |polls| - used
    {
      assert polls[..used + 1][..used] == polls[..used];
      match polls[used] {
        case Fetched(r) => record := r;
        case Threw =>
      }
      used := used + 1;
      if IsRunCompleted(record) {
        return Some(ExitCodeForStatus(record.value.status)), used;
      }
    }
    code := None;
  }
}
