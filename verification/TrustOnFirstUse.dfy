/**
 The verifier of server certificates: what it decides from the store it was given, what it writes,
 and what this amounts to when connections follow one another and share a hosts file.
 */
module TrustOnFirstUse {
  import opened Base
  import opened KnownHosts

  datatype Status = UnknownCertificate | UntrustedCertificate | TrustedCertificate

  datatype Action = AbortConnection | TrustOnce | TrustAndStore

  datatype Behaviour = RequestClientAction | ImmediateAction(action: Action)

  type Behaviours = map<Status, Behaviour>

  const DEFAULT_BEHAVIOURS: Behaviours := map[
    UnknownCertificate := ImmediateAction(TrustAndStore),
    UntrustedCertificate := RequestClientAction,
    TrustedCertificate := ImmediateAction(TrustOnce)
  ]

  datatype CertInfo = CertInfo(name: ServerName, fingerprint: Fingerprint, known: Option<Fingerprint>)

  datatype Signal =
    | InteractionRequest(status: Status, info: CertInfo)
    | TrustUpdate(info: CertInfo)
    | ConnectionAbort(status: Status, info: CertInfo)

  /** `Crashed`: the task panics, as the hosts file cannot be read or the request for an action cannot be queued. */
  datatype Verdict = Accepted | Rejected | Crashed

  /**
     What the world answers: whether the request and the report can be queued for the client, which
     action it picks (none if it drops the request), and whether the hosts file can be written.
   */
  datatype Env = Env(requestQueued: bool, answer: Option<Action>, writable: bool, reportQueued: bool)

  function StatusOf(store: CertStore, name: ServerName, fingerprint: Fingerprint): Status {
    if name !in store then UnknownCertificate
    else if store[name] == fingerprint then TrustedCertificate
    else UntrustedCertificate
  }

  /** A status without a behaviour aborts the connection. */
  function BehaviourFor(behaviours: Behaviours, status: Status): Behaviour {
    if status in behaviours then behaviours[status] else ImmediateAction(AbortConnection)
  }

  /** The action taken, if it comes to one. */
  function Chosen(behaviours: Behaviours, status: Status, env: Env): Option<Action> {
    match BehaviourFor(behaviours, status)
    case ImmediateAction(action) => Some(action)
    case RequestClientAction => if env.requestQueued then env.answer else None
  }

  /** How a certificate stands, by the entry of the store for its name. */
  ghost predicate IsStatus(status: Status, store: CertStore, name: ServerName, fingerprint: Fingerprint) {
    match status
    case UnknownCertificate => name !in store
    case UntrustedCertificate => name in store && store[name] != fingerprint
    case TrustedCertificate => name in store && store[name] == fingerprint
  }

  /** The client is asked: the entry for this status says so. */
  ghost predicate Asks(behaviours: Behaviours, status: Status) {
    status in behaviours && behaviours[status] == RequestClientAction
  }

  /** The action is taken: it is the entry's own, or the client's answer, or an abort where there is no entry. */
  ghost predicate Takes(behaviours: Behaviours, status: Status, env: Env, action: Action) {
    || (status !in behaviours && action == AbortConnection)
    || (status in behaviours && behaviours[status] == ImmediateAction(action))
    || (Asks(behaviours, status) && env.requestQueued && env.answer == Some(action))
  }

  /** Nothing trusts the certificate: there is no entry, or it aborts, or the client aborts or does not answer. */
  ghost predicate Distrusts(behaviours: Behaviours, status: Status, env: Env) {
    || status !in behaviours
    || behaviours[status] == ImmediateAction(AbortConnection)
    || (behaviours[status] == RequestClientAction
        && (!env.requestQueued || env.answer == None || env.answer == Some(AbortConnection)))
  }

  /** The verdict: a connection is accepted only by an action that trusts, and stores if it is to. */
  predicate Decides(behaviours: Behaviours, status: Status, env: Env, hasFile: bool, v: Verdict) {
    var chosen := Chosen(behaviours, status, env);
    && (v.Crashed? <==> BehaviourFor(behaviours, status).RequestClientAction? && !env.requestQueued)
    && (v.Accepted? <==> chosen == Some(TrustOnce)
                         || (chosen == Some(TrustAndStore) && (hasFile ==> env.writable) && env.reportQueued))
  }

  class TofuServerVerification {
    const store: CertStore
    const behaviours: Behaviours
    const hostsFile: HostsFile?
    var signals: seq<Signal>

    constructor (store: CertStore, behaviours: Behaviours, hostsFile: HostsFile?)
      ensures this.store == store && this.behaviours == behaviours && this.hostsFile == hostsFile && signals == []
    {
      this.store := store;
      this.behaviours := behaviours;
      this.hostsFile := hostsFile;
      signals := [];
    }

    function FileOf(): set<HostsFile> {
      if hostsFile == null then {} else {hostsFile}
    }

    /**
       Trusting and storing writes the file first and reports second: a report that cannot be
       queued rejects the connection, but what was written stays.
     */
    method ApplyAction(action: Action, status: Status, info: CertInfo, env: Env) returns (v: Verdict)
      modifies this`signals, FileOf()
      ensures v == match action
                   case AbortConnection => Rejected
                   case TrustOnce => Accepted
                   case TrustAndStore =>
                     if (hostsFile == null || env.writable) && env.reportQueued then Accepted else Rejected
      ensures action.AbortConnection? && env.reportQueued ==> signals == old(signals) + [ConnectionAbort(status, info)]
      ensures action.TrustAndStore? && v.Accepted? ==> signals == old(signals) + [TrustUpdate(info)]
      ensures action.TrustOnce? || (action.TrustAndStore? && !v.Accepted?) || (action.AbortConnection? && !env.reportQueued) ==>
                signals == old(signals)
      ensures hostsFile != null ==>
                if action.TrustAndStore? && env.writable then
                  exists entries :: Lists(entries, store[info.name := info.fingerprint])
                                    && hostsFile.content == Some(Print(entries))
                else hostsFile.content == old(hostsFile.content)
    {
      match action {
        case AbortConnection =>
          if env.reportQueued {
            signals := signals + [ConnectionAbort(status, info)];
          }
          return Rejected;
        case TrustOnce =>
          return Accepted;
        case TrustAndStore =>
          if hostsFile != null {
            var stored, entries := hostsFile.StoreKnownHosts(store[info.name := info.fingerprint], env.writable);
            if !stored {
              return Rejected;
            }
          }
          if !env.reportQueued {
            return Rejected;
          }
          signals := signals + [TrustUpdate(info)];
          return Accepted;
      }
    }

    /** The action that a status leads to, if it comes to one. */
    method ActionFor(status: Status, info: CertInfo, env: Env) returns (action: Option<Action>)
      modifies this`signals
      ensures action == Chosen(behaviours, status, env)
      ensures match action
              case Some(a) => Takes(behaviours, status, env, a)
              case None => Asks(behaviours, status) && !(env.requestQueued && env.answer.Some?)
      ensures signals == old(signals) + (if Asks(behaviours, status) && env.requestQueued then [InteractionRequest(status, info)] else [])
    {
      var behaviour := if status in behaviours then behaviours[status] else ImmediateAction(AbortConnection);
      match behaviour {
        case ImmediateAction(a) =>
          return Some(a);
        case RequestClientAction =>
          if !env.requestQueued {
            return None;
          }
          signals := signals + [InteractionRequest(status, info)];
          return env.answer;
      }
    }

    /**
       A connection is accepted only by an action that trusts, and nothing is written unless the action
       is to store; then the file holds the store with this certificate for this name. The client is
       asked if the behaviour says so, and then its answer is the action.
     */
    method VerifyServerCert(name: ServerName, fingerprint: Fingerprint, env: Env)
      returns (v: Verdict, ghost status: Status, ghost action: Option<Action>)
      modifies this`signals, FileOf()
      ensures IsStatus(status, store, name, fingerprint) && status == StatusOf(store, name, fingerprint)
      ensures action == Chosen(behaviours, status, env)
      ensures match action
              case Some(a) => Takes(behaviours, status, env, a)
              case None => Asks(behaviours, status) && !(env.requestQueued && env.answer.Some?)
      ensures v == match action
                   case Some(TrustOnce) => Accepted
                   case Some(TrustAndStore) =>
                     if (hostsFile == null || env.writable) && env.reportQueued then Accepted else Rejected
                   case Some(AbortConnection) => Rejected
                   case None => if env.requestQueued then Rejected else Crashed
      ensures var info := CertInfo(name, fingerprint, if name in store then Some(store[name]) else None);
              signals == old(signals)
                         + (if Asks(behaviours, status) && env.requestQueued then [InteractionRequest(status, info)] else [])
                         + (if action == Some(AbortConnection) && env.reportQueued then [ConnectionAbort(status, info)]
                            else if action == Some(TrustAndStore) && v.Accepted? then [TrustUpdate(info)]
                            else [])
      ensures hostsFile != null ==>
                if action == Some(TrustAndStore) && env.writable then
                  exists entries :: Lists(entries, store[name := fingerprint]) && hostsFile.content == Some(Print(entries))
                else hostsFile.content == old(hostsFile.content)
      ensures Decides(behaviours, status, env, hostsFile != null, v)
    {
      var known := if name in store then Some(store[name]) else None;
      var info := CertInfo(name, fingerprint, known);
      var standing;
      match known {
        case Some(f) =>
          if f == fingerprint {
            standing := TrustedCertificate;
          } else {
            standing := UntrustedCertificate;
          }
        case None => standing := UnknownCertificate;
      }
      status := standing;
      var chosen := ActionFor(standing, info, env);
      action := chosen;
      match chosen {
        case Some(a) => v := ApplyAction(a, standing, info, env);
        case None => v := if env.requestQueued then Rejected else Crashed;
      }
    }
  }

  // ---- Connections that follow one another --------------------------------

  datatype Attempt = Attempt(name: ServerName, fingerprint: Fingerprint, env: Env)

  /** The attempt writes its certificate to the hosts file. */
  predicate Stores(behaviours: Behaviours, store: CertStore, a: Attempt) {
    a.env.writable && Chosen(behaviours, StatusOf(store, a.name, a.fingerprint), a.env) == Some(TrustAndStore)
  }

  /** One connection: it loads the file, and may write it, in any order of entries. */
  ghost predicate Connects(parse: NameParser, behaviours: Behaviours, file: Option<string>, a: Attempt, file': Option<string>) {
    match LoadFile(parse, file)
    case Err(_) => file' == file
    case Ok(store) =>
      if Stores(behaviours, store, a) then
        exists entries :: Lists(entries, store[a.name := a.fingerprint]) && file' == Some(Print(entries))
      else file' == file
  }

  /** The actions that are taken are exactly those that the table, and the client where it is asked, call for. */
  lemma ChosenIsTaken(behaviours: Behaviours, status: Status, env: Env, action: Action)
    ensures Chosen(behaviours, status, env) == Some(action) <==> Takes(behaviours, status, env, action)
  {
  }

  lemma DistrustedIsRefused(behaviours: Behaviours, store: CertStore, a: Attempt, v: Verdict)
    requires Decides(behaviours, StatusOf(store, a.name, a.fingerprint), a.env, true, v)
    ensures forall status :: IsStatus(status, store, a.name, a.fingerprint) && Distrusts(behaviours, status, a.env) ==>
              !v.Accepted? && !Stores(behaviours, store, a)
  {
  }

  method Connect(parse: NameParser, behaviours: Behaviours, file: HostsFile, a: Attempt) returns (v: Verdict)
    modifies file
    ensures Connects(parse, behaviours, old(file.content), a, file.content)
    ensures match LoadFile(parse, old(file.content))
            case Err(_) => v.Crashed?
            case Ok(store) =>
              && Decides(behaviours, StatusOf(store, a.name, a.fingerprint), a.env, true, v)
              && (forall status :: IsStatus(status, store, a.name, a.fingerprint) && Distrusts(behaviours, status, a.env) ==>
                    !v.Accepted? && file.content == old(file.content))
  {
    var loaded := file.LoadKnownHosts(parse);
    match loaded {
      case Err(_) => return Crashed;
      case Ok(store) =>
        var verifier := new TofuServerVerification(store, behaviours, file);
        ghost var status, action;
        v, status, action := verifier.VerifyServerCert(a.name, a.fingerprint, a.env);
        DistrustedIsRefused(behaviours, store, a, v);
    }
  }

  /** Attempt `k` is the connection between the files `k` and `k + 1`. */
  ghost predicate ConnectsAt(parse: NameParser, behaviours: Behaviours, files: seq<Option<string>>, attempts: seq<Attempt>, k: nat)
    requires k < |attempts| && k + 1 < |files|
  {
    WellNamed(parse, attempts[k].name) && Connects(parse, behaviours, files[k], attempts[k], files[k + 1])
  }

  /** `files[k]` is the hosts file after the first `k` connections; it need not exist at first. */
  ghost predicate Run(parse: NameParser, behaviours: Behaviours, files: seq<Option<string>>, attempts: seq<Attempt>) {
    && |files| == |attempts| + 1
    && (forall k :: 0 <= k < |attempts| ==> ConnectsAt(parse, behaviours, files, attempts, k))
  }

  /** The store a file is loaded as. */
  function StoreIn(parse: NameParser, file: Option<string>): CertStore {
    match LoadFile(parse, file)
    case Ok(store) => store
    case Err(_) => map[]
  }

  ghost predicate Readable(parse: NameParser, file: Option<string>) {
    LoadFile(parse, file).Ok? && AllWellNamed(parse, StoreIn(parse, file))
  }

  /** Which certificate is known for a name after an attempt. */
  ghost predicate Remembers(before: CertStore, behaviours: Behaviours, a: Attempt, after: CertStore) {
    if Stores(behaviours, before, a) then after == before[a.name := a.fingerprint] else after == before
  }

  lemma ConnectKeepsReadable(parse: NameParser, behaviours: Behaviours, file: Option<string>, a: Attempt, file': Option<string>)
    requires Readable(parse, file) && WellNamed(parse, a.name) && Connects(parse, behaviours, file, a, file')
    ensures Readable(parse, file') && Remembers(StoreIn(parse, file), behaviours, a, StoreIn(parse, file'))
  {
    var store := StoreIn(parse, file);
    if Stores(behaviours, store, a) {
      var after := store[a.name := a.fingerprint];
      var entries :| Lists(entries, after) && file' == Some(Print(entries));
      FileRoundTrip(parse, after, entries);
    }
  }

  /** A file that cannot be read at first is never written. */
  lemma {:induction false} UnreadableStays(parse: NameParser, behaviours: Behaviours, files: seq<Option<string>>,
                                           attempts: seq<Attempt>, k: nat)
    requires Run(parse, behaviours, files, attempts) && LoadFile(parse, files[0]).Err? && k < |files|
    ensures files[k] == files[0]
  {
    if k > 0 {
      UnreadableStays(parse, behaviours, files, attempts, k - 1);
      assert ConnectsAt(parse, behaviours, files, attempts, k - 1);
    }
  }

  lemma {:induction false} RunKeepsReadable(parse: NameParser, behaviours: Behaviours, files: seq<Option<string>>,
                                            attempts: seq<Attempt>, k: nat)
    requires Run(parse, behaviours, files, attempts) && Readable(parse, files[0]) && k < |files|
    ensures Readable(parse, files[k])
    ensures k > 0 ==> Remembers(StoreIn(parse, files[k - 1]), behaviours, attempts[k - 1], StoreIn(parse, files[k]))
  {
    if k > 0 {
      RunKeepsReadable(parse, behaviours, files, attempts, k - 1);
      assert ConnectsAt(parse, behaviours, files, attempts, k - 1);
      ConnectKeepsReadable(parse, behaviours, files[k - 1], attempts[k - 1], files[k]);
    }
  }

  /** The stores that the files of a run are loaded as. */
  function StoresOf(parse: NameParser, files: seq<Option<string>>): seq<CertStore> {
    seq(|files|, i requires 0 <= i < |files| => StoreIn(parse, files[i]))
  }

  /** Attempt `k` is the connection between the stores `k` and `k + 1`. */
  ghost predicate RemembersAt(behaviours: Behaviours, stores: seq<CertStore>, attempts: seq<Attempt>, k: nat)
    requires k < |attempts| && k + 1 < |stores|
  {
    Remembers(stores[k], behaviours, attempts[k], stores[k + 1])
  }

  /** The same run, as the stores that the connections load. */
  ghost predicate StoreRun(behaviours: Behaviours, stores: seq<CertStore>, attempts: seq<Attempt>) {
    && |stores| == |attempts| + 1
    && (forall k :: 0 <= k < |attempts| ==> RemembersAt(behaviours, stores, attempts, k))
  }

  lemma StepIsStoreStep(parse: NameParser, behaviours: Behaviours, files: seq<Option<string>>, attempts: seq<Attempt>, k: nat)
    requires |files| == |attempts| + 1 && k < |attempts|
    requires Remembers(StoreIn(parse, files[k]), behaviours, attempts[k], StoreIn(parse, files[k + 1]))
    ensures RemembersAt(behaviours, StoresOf(parse, files), attempts, k)
  {
    var stores := StoresOf(parse, files);
    assert stores[k] == StoreIn(parse, files[k]) && stores[k + 1] == StoreIn(parse, files[k + 1]);
  }

  lemma RunIsStoreRun(parse: NameParser, behaviours: Behaviours, files: seq<Option<string>>, attempts: seq<Attempt>)
    requires Run(parse, behaviours, files, attempts) && Readable(parse, files[0])
    ensures StoreRun(behaviours, StoresOf(parse, files), attempts)
  {
    forall k | 0 <= k < |attempts| ensures RemembersAt(behaviours, StoresOf(parse, files), attempts, k) {
      RunKeepsReadable(parse, behaviours, files, attempts, k + 1);
      StepIsStoreStep(parse, behaviours, files, attempts, k);
    }
  }

  /** The certificate a store holds for a name. */
  function Known(store: CertStore, name: ServerName): Option<Fingerprint> {
    if name in store then Some(store[name]) else None
  }

  /** Attempt `i` of a run writes a certificate for `name`. */
  predicate StoredAt(behaviours: Behaviours, stores: seq<CertStore>, attempts: seq<Attempt>, i: nat, name: ServerName)
    requires i < |attempts| < |stores|
  {
    attempts[i].name == name && Stores(behaviours, stores[i], attempts[i])
  }

  /** No attempt from `i` up to `k` writes a certificate for `name`. */
  ghost predicate NotStored(behaviours: Behaviours, stores: seq<CertStore>, attempts: seq<Attempt>, i: nat, k: nat, name: ServerName)
    requires k <= |attempts| < |stores|
  {
    forall j :: i <= j < k ==> !StoredAt(behaviours, stores, attempts, j, name)
  }

  lemma KnownNext(behaviours: Behaviours, stores: seq<CertStore>, attempts: seq<Attempt>, i: nat, name: ServerName)
    requires StoreRun(behaviours, stores, attempts) && i < |attempts|
    ensures Known(stores[i + 1], name) == if StoredAt(behaviours, stores, attempts, i, name)
                                          then Some(attempts[i].fingerprint) else Known(stores[i], name)
  {
    assert RemembersAt(behaviours, stores, attempts, i);
  }

  lemma {:induction false} KnownFrom(behaviours: Behaviours, stores: seq<CertStore>, attempts: seq<Attempt>,
                                     i: nat, k: nat, name: ServerName)
    requires StoreRun(behaviours, stores, attempts) && i <= k < |stores|
    requires NotStored(behaviours, stores, attempts, i, k, name)
    ensures Known(stores[k], name) == Known(stores[i], name)
  {
    if i < k {
      KnownFrom(behaviours, stores, attempts, i, k - 1, name);
      KnownNext(behaviours, stores, attempts, k - 1, name);
    }
  }

  lemma LastStoreIsKnown(behaviours: Behaviours, stores: seq<CertStore>, attempts: seq<Attempt>,
                         i: nat, k: nat, name: ServerName)
    requires StoreRun(behaviours, stores, attempts) && i < k < |stores|
    requires StoredAt(behaviours, stores, attempts, i, name) && NotStored(behaviours, stores, attempts, i + 1, k, name)
    ensures Known(stores[k], name) == Some(attempts[i].fingerprint)
  {
    KnownFrom(behaviours, stores, attempts, i + 1, k, name);
    KnownNext(behaviours, stores, attempts, i, name);
  }

  /**
     In every run of connections that share a hosts file, one after the other: until a certificate
     is stored for a name, certificates for it are judged by the first file; from then on one is
     trusted exactly if it is the one stored last, whatever was stored for other names, and
     untrusted otherwise.
   */
  lemma TrustFollowsTheLastStore(parse: NameParser, behaviours: Behaviours, files: seq<Option<string>>,
                                 attempts: seq<Attempt>, k: nat, name: ServerName, fingerprint: Fingerprint)
    requires Run(parse, behaviours, files, attempts) && Readable(parse, files[0]) && k < |files|
    ensures LoadFile(parse, files[k]).Ok?
    ensures var stores := StoresOf(parse, files);
            var status := StatusOf(stores[k], name, fingerprint);
            && (NotStored(behaviours, stores, attempts, 0, k, name) ==> status == StatusOf(stores[0], name, fingerprint))
            && (forall i :: 0 <= i < k && StoredAt(behaviours, stores, attempts, i, name)
                            && NotStored(behaviours, stores, attempts, i + 1, k, name) ==>
                  status == if fingerprint == attempts[i].fingerprint then TrustedCertificate else UntrustedCertificate)
  {
    RunKeepsReadable(parse, behaviours, files, attempts, k);
    RunIsStoreRun(parse, behaviours, files, attempts);
    LastStoreDecides(behaviours, StoresOf(parse, files), attempts, k, name, fingerprint);
  }

  lemma LastStoreDecides(behaviours: Behaviours, stores: seq<CertStore>, attempts: seq<Attempt>,
                         k: nat, name: ServerName, fingerprint: Fingerprint)
    requires StoreRun(behaviours, stores, attempts) && k < |stores|
    ensures var status := StatusOf(stores[k], name, fingerprint);
            && (NotStored(behaviours, stores, attempts, 0, k, name) ==> status == StatusOf(stores[0], name, fingerprint))
            && (forall i :: 0 <= i < k && StoredAt(behaviours, stores, attempts, i, name)
                            && NotStored(behaviours, stores, attempts, i + 1, k, name) ==>
                  status == if fingerprint == attempts[i].fingerprint then TrustedCertificate else UntrustedCertificate)
  {
    if NotStored(behaviours, stores, attempts, 0, k, name) {
      KnownFrom(behaviours, stores, attempts, 0, k, name);
    }
    forall i | 0 <= i < k && StoredAt(behaviours, stores, attempts, i, name)
               && NotStored(behaviours, stores, attempts, i + 1, k, name)
      ensures Known(stores[k], name) == Some(attempts[i].fingerprint)
    {
      LastStoreIsKnown(behaviours, stores, attempts, i, k, name);
    }
  }

  /** With the default behaviours, what is stored for a known name is stored because the client says so. */
  lemma DefaultAsksToReplace(store: CertStore, a: Attempt)
    ensures Stores(DEFAULT_BEHAVIOURS, store, a) <==>
              a.env.writable && (a.name !in store || (store[a.name] != a.fingerprint
                                 && a.env.requestQueued && a.env.answer == Some(TrustAndStore)))
  {
  }

  /**
     With the default behaviours a trusted certificate is accepted without a question; an untrusted one
     only if the client answers that it trusts it; and an unknown one if it can be stored and reported.
   */
  lemma DefaultVerdicts(status: Status, env: Env, hasFile: bool, v: Verdict)
    requires Decides(DEFAULT_BEHAVIOURS, status, env, hasFile, v)
    ensures status.TrustedCertificate? ==> v.Accepted?
    ensures status.UnknownCertificate? ==> (v.Accepted? <==> (hasFile ==> env.writable) && env.reportQueued)
    ensures status.UntrustedCertificate? ==>
              (v.Accepted? <==> env.requestQueued
                                && (env.answer == Some(TrustOnce)
                                    || (env.answer == Some(TrustAndStore) && (hasFile ==> env.writable) && env.reportQueued)))
    ensures v.Crashed? <==> status.UntrustedCertificate? && !env.requestQueued
  {
  }

  lemma {:induction false} KeptUnlessReplaced(stores: seq<CertStore>, attempts: seq<Attempt>, i: nat, k: nat, name: ServerName)
    requires StoreRun(DEFAULT_BEHAVIOURS, stores, attempts) && i <= k < |stores| && name in stores[i]
    requires forall j :: i <= j < k && attempts[j].name == name ==> attempts[j].env.answer != Some(TrustAndStore)
    ensures Known(stores[k], name) == Known(stores[i], name)
  {
    if i < k {
      KeptUnlessReplaced(stores, attempts, i, k - 1, name);
      KnownNext(DEFAULT_BEHAVIOURS, stores, attempts, k - 1, name);
      DefaultAsksToReplace(stores[k - 1], attempts[k - 1]);
    }
  }

  /**
     In every run with the default behaviours, a name that is known at some point keeps its
     certificate for as long as no connection to it is answered by trusting and storing another.
   */
  lemma FirstUseIsKept(parse: NameParser, files: seq<Option<string>>, attempts: seq<Attempt>, i: nat, k: nat, name: ServerName)
    requires Run(parse, DEFAULT_BEHAVIOURS, files, attempts) && Readable(parse, files[0]) && i <= k < |files|
    requires name in StoreIn(parse, files[i])
    requires forall j :: i <= j < k && attempts[j].name == name ==> attempts[j].env.answer != Some(TrustAndStore)
    ensures name in StoreIn(parse, files[k]) && StoreIn(parse, files[k])[name] == StoreIn(parse, files[i])[name]
  {
    var stores := StoresOf(parse, files);
    RunIsStoreRun(parse, DEFAULT_BEHAVIOURS, files, attempts);
    KeptUnlessReplaced(stores, attempts, i, k, name);
    assert stores[i] == StoreIn(parse, files[i]) && stores[k] == StoreIn(parse, files[k]);
  }

  /**
     Two connections that loaded the same store: the one that stores last forgets what the other
     stored, except what the common store already said.
   */
  lemma ConcurrentStoresForget(parse: NameParser, store: CertStore, a: Attempt, b: Attempt, entries: seq<Entry>)
    requires AllWellNamed(parse, store) && WellNamed(parse, b.name)
    requires Lists(entries, store[b.name := b.fingerprint])
    ensures StatusOf(StoreIn(parse, Some(Print(entries))), a.name, a.fingerprint) == TrustedCertificate <==>
              if a.name == b.name then a.fingerprint == b.fingerprint
              else a.name in store && store[a.name] == a.fingerprint
  {
    FileRoundTrip(parse, store[b.name := b.fingerprint], entries);
  }
}
