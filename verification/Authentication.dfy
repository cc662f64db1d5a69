/** Which credentials a connection offers, and in which order
    (rust-core/src/providers/russh.rs). */
module Authentication {
  import opened Wrappers

  /** What became of one key: it did not load, or the server accepted or rejected it, or
      the exchange failed. */
  datatype Attempt = LoadFailed | Accepted | Rejected | Broken

  datatype KeyError = KeyError(path: string, why: Attempt)

  datatype Report = Report(authenticated: bool, attempted: nat, fatal: bool, lastError: Option<KeyError>)

  /** A stored secret, and whether it is UTF-8. */
  datatype Secret = Secret(text: string, utf8: bool)

  /** What was offered to the server: keys with what became of them, then perhaps the
      password. */
  datatype Offers = Offers(keys: seq<(string, Attempt)>, password: Option<Attempt>)

  datatype Outcome =
    | Connected
    | BadPassphrase | BadPassword | KeyUnusable(error: KeyError) | PasswordFailed
    | NothingToTry | KeysRefused(last: KeyError) | PasswordRefused | BothRefused(last: KeyError)

  /** Some key of `tries` was accepted; it can only be the last one. */
  predicate KeyAccepted(tries: seq<(string, Attempt)>) { tries != [] && tries[|tries| - 1].1 == Accepted }

  /** An explicitly chosen key could not be loaded. */
  predicate ExplicitKeyBroken(tries: seq<(string, Attempt)>, explicit: bool) {
    explicit && tries != [] && tries[|tries| - 1].1 == LoadFailed
  }

  /** The keys tried so far do not end the search. */
  predicate GoesOn(tries: seq<(string, Attempt)>, explicit: bool) {
    forall i | 0 <= i < |tries| :: tries[i].1 != Accepted && !(explicit && tries[i].1 == LoadFailed)
  }

  /** Candidates are tried in order, all of them unless one ends the search. */
  ghost predicate InOrder(tries: seq<(string, Attempt)>, candidates: seq<string>, explicit: bool) {
    && |tries| <= |candidates|
    && (forall i | 0 <= i < |tries| :: tries[i].0 == candidates[i])
    && (tries != [] ==> GoesOn(tries[..|tries| - 1], explicit))
    && (|tries| < |candidates| ==> KeyAccepted(tries) || ExplicitKeyBroken(tries, explicit))
  }

  function LastKey(tries: seq<(string, Attempt)>): Option<KeyError> {
    if tries == [] then None else Some(KeyError(tries[|tries| - 1].0, tries[|tries| - 1].1))
  }

  /** Loading and offering one key: anything may happen. */
  method TryKey(path: string) returns (a: Attempt)
  {
    var loads, answered, success := *, *, *;
    a := if !loads then LoadFailed else if !answered then Broken else if success then Accepted else Rejected;
  }

  method TryPublickeyAuth(candidates: seq<string>, explicit: bool)
    returns (report: Report, tries: seq<(string, Attempt)>)
    ensures InOrder(tries, candidates, explicit)
    ensures report.attempted == |tries|
    ensures report.authenticated <==> KeyAccepted(tries)
    ensures report.fatal <==> ExplicitKeyBroken(tries, explicit)
    ensures !report.authenticated ==> report.lastError == LastKey(tries)
  {
    report, tries := Report(false, 0, false, None), [];
    for i := 0 to |candidates|
      invariant |tries| == i && forall k | 0 <= k < i :: tries[k].0 == candidates[k]
      invariant GoesOn(tries, explicit)
      invariant report == Report(false, i, false, LastKey(tries))
    {
      var path := candidates[i];
      report := report.(attempted := report.attempted + 1);
      var a := TryKey(path);
      var before := tries;
      tries := tries + [(path, a)];
      assert tries[..i] == before;
      if a == LoadFailed {
        report := report.(lastError := Some(KeyError(path, a)));
        if explicit {
          report := report.(fatal := true);
          return;
        }
      } else if a == Accepted {
        report := report.(authenticated := true);
        return;
      } else {
        report := report.(lastError := Some(KeyError(path, a)));
      }
    }
    if tries != [] { assert forall k | 0 <= k < |tries| - 1 :: tries[..|tries| - 1][k] == tries[k]; }
  }

  /** The password is offered exactly if it is there and readable, no key was accepted and
      no explicit key turned out unusable. */
  predicate PasswordDue(tries: seq<(string, Attempt)>, explicit: bool, secret: Option<Secret>) {
    !KeyAccepted(tries) && !ExplicitKeyBroken(tries, explicit) && secret.Some? && secret.value.utf8
  }

  /** The outcome, given what was offered. */
  function Verdict(o: Offers, explicit: bool, secret: Option<Secret>): Outcome {
    if KeyAccepted(o.keys) || o.password == Some(Accepted) then Connected
    else if ExplicitKeyBroken(o.keys, explicit) then KeyUnusable(LastKey(o.keys).value)
    else if secret.Some? && !secret.value.utf8 then BadPassword
    else if o.password == Some(Broken) then PasswordFailed
    else
      match (o.keys != [], secret.Some?)
      case (false, false) => NothingToTry
      case (true, false) => KeysRefused(LastKey(o.keys).value)
      case (false, true) => PasswordRefused
      case (true, true) => BothRefused(LastKey(o.keys).value)
  }

  /** The authentication part of `connect`; `discovered` are the default keys found. */
  method Authenticate(keyPath: Option<string>, discovered: seq<string>, passphrase: Option<Secret>,
                      secret: Option<Secret>)
    returns (r: Outcome, offers: Offers)
    ensures passphrase.Some? && !passphrase.value.utf8 ==> r == BadPassphrase && offers == Offers([], None)
    ensures passphrase.None? || passphrase.value.utf8 ==>
              && InOrder(offers.keys, if keyPath.Some? then [keyPath.value] else discovered, keyPath.Some?)
              && (offers.password.Some? <==> PasswordDue(offers.keys, keyPath.Some?, secret))
              && (offers.password.Some? ==> offers.password.value != LoadFailed)
              && r == Verdict(offers, keyPath.Some?, secret)
  {
    offers := Offers([], None);
    var explicit := keyPath.Some?;
    var candidates := if explicit then [keyPath.value] else discovered;
    if passphrase.Some? && !passphrase.value.utf8 { return BadPassphrase, offers; }
    var authenticated, keyAuth := false, Report(false, 0, false, None);
    if candidates != [] {
      var tries;
      keyAuth, tries := TryPublickeyAuth(candidates, explicit);
      offers := offers.(keys := tries);
      authenticated := keyAuth.authenticated;
      if keyAuth.fatal {
        return KeyUnusable(keyAuth.lastError.value), offers;
      }
    }
    if !authenticated && secret.Some? {
      if !secret.value.utf8 { return BadPassword, offers; }
      var answered, success := *, *;
      offers := offers.(password := Some(if !answered then Broken else if success then Accepted else Rejected));
      if !answered { return PasswordFailed, offers; }
      authenticated := success;
    }
    if !authenticated {
      r := match (keyAuth.attempted > 0, secret.Some?)
        case (false, false) => NothingToTry
        case (true, false) => KeysRefused(keyAuth.lastError.value)
        case (false, true) => PasswordRefused
        case (true, true) => BothRefused(keyAuth.lastError.value);
      return r, offers;
    }
    r := Connected;
  }

  /** A connection is authenticated exactly if the server accepted something, and then it
      was the last thing offered. */
  lemma ConnectedMeansAccepted(o: Offers, candidates: seq<string>, explicit: bool, secret: Option<Secret>)
    requires InOrder(o.keys, candidates, explicit) && (o.password.Some? <==> PasswordDue(o.keys, explicit, secret))
    ensures Verdict(o, explicit, secret) == Connected <==>
              (exists i :: 0 <= i < |o.keys| && o.keys[i].1 == Accepted) || o.password == Some(Accepted)
    ensures forall i | 0 <= i < |o.keys| && o.keys[i].1 == Accepted :: i == |o.keys| - 1 && o.password.None?
  {
    forall i | 0 <= i < |o.keys| - 1 ensures o.keys[i].1 != Accepted {
      assert o.keys[..|o.keys| - 1][i] == o.keys[i];
    }
  }

  /** With an explicit key no other key is tried, and the password stands in for it only if
      the key was fit to be offered. */
  lemma ExplicitKeyComesFirst(o: Offers, path: string, secret: Option<Secret>)
    requires InOrder(o.keys, [path], true) && (o.password.Some? <==> PasswordDue(o.keys, true, secret))
    ensures |o.keys| == 1 && o.keys[0].0 == path
    ensures o.password.Some? <==>
              (o.keys[0].1 == Rejected || o.keys[0].1 == Broken) && secret.Some? && secret.value.utf8
    ensures o.keys[0].1 == LoadFailed <==> Verdict(o, true, secret) == KeyUnusable(KeyError(path, LoadFailed))
  {
  }

  /** Without an explicit key every key found is tried until one is accepted, whatever fails
      to load, and the password follows exactly if none was accepted. */
  lemma FoundKeysThenPassword(o: Offers, candidates: seq<string>, secret: Option<Secret>)
    requires InOrder(o.keys, candidates, false) && (o.password.Some? <==> PasswordDue(o.keys, false, secret))
    ensures (forall i | 0 <= i < |o.keys| :: o.keys[i].1 != Accepted) ==> |o.keys| == |candidates|
    ensures o.password.Some? <==>
              (forall i | 0 <= i < |o.keys| :: o.keys[i].1 != Accepted) && secret.Some? && secret.value.utf8
  {
    if o.keys != [] && o.keys[|o.keys| - 1].1 != Accepted {
      forall i | 0 <= i < |o.keys| ensures o.keys[i].1 != Accepted {
        if i < |o.keys| - 1 { assert o.keys[..|o.keys| - 1][i] == o.keys[i]; }
      }
    }
  }

  /** How a connection that is not authenticated reports it. */
  lemma FailuresAreTold(o: Offers, explicit: bool, secret: Option<Secret>)
    requires (o.password.Some? <==> PasswordDue(o.keys, explicit, secret)) && o.password != Some(LoadFailed)
    requires Verdict(o, explicit, secret) != Connected
    ensures var v := Verdict(o, explicit, secret);
            && (explicit && o.keys != [] && o.keys[|o.keys| - 1].1 == LoadFailed ==>
                  v == KeyUnusable(KeyError(o.keys[|o.keys| - 1].0, LoadFailed)))
            && (v.KeyUnusable? ==> explicit && o.keys != [] && o.keys[|o.keys| - 1].1 == LoadFailed)
            && (!v.KeyUnusable? ==>
                  && (secret.Some? && !secret.value.utf8 <==> v == BadPassword)
                  && (o.password == Some(Broken) <==> v == PasswordFailed)
                  && (o.keys == [] && secret.None? <==> v == NothingToTry)
                  && (o.keys == [] && o.password == Some(Rejected) <==> v == PasswordRefused)
                  && (o.keys != [] && secret.None? <==> v.KeysRefused?)
                  && (o.keys != [] && o.password == Some(Rejected) <==> v.BothRefused?)
                  && (v.KeysRefused? || v.BothRefused? ==>
                        v.last == KeyError(o.keys[|o.keys| - 1].0, o.keys[|o.keys| - 1].1)))
  {
    if o.password.Some? {
      match o.password.value
      case Accepted =>
      case Rejected =>
      case Broken =>
      case LoadFailed =>
    }
  }
}
