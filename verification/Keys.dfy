/**
 The JWT key pair of a cluster. Keys, signatures and tokens are symbolic: a
 signature verifies under exactly the public key of the pair that made it.
 */
module Keys {
  import opened Wrappers

  datatype PrivateKey = PrivateKey(seed: nat)
  datatype PublicKey = PublicKey(seed: nat)

  /** The Secret cluster-<name>-jwt: private.pem and public.pem, if present and readable. */
  datatype Secret = Secret(privatePem: Option<PrivateKey>, publicPem: Option<PublicKey>)

  datatype Manager = Manager(privateKey: PrivateKey, publicKey: PublicKey)

  datatype Token = Token(claims: string, signer: PrivateKey)

  function GenerateKey(seed: nat): Secret {
    Secret(Some(PrivateKey(seed)), Some(PublicKey(seed)))
  }

  function NewManager(secret: Secret): Option<Manager> {
    if secret.privatePem.None? || secret.publicPem.None? then None
    else Some(Manager(secret.privatePem.value, secret.publicPem.value))
  }

  function Sign(m: Manager, claims: string): Token {
    Token(claims, m.privateKey)
  }

  predicate Verifies(jwk: PublicKey, t: Token) {
    t.signer.seed == jwk.seed
  }

  /** A manager needs both halves and takes them as they are. */
  lemma NewManagerIff(secret: Secret)
    ensures NewManager(secret).Some? <==> secret.privatePem.Some? && secret.publicPem.Some?
    ensures NewManager(secret).Some? ==>
              Some(NewManager(secret).value.privateKey) == secret.privatePem && Some(NewManager(secret).value.publicKey) == secret.publicPem
  {
  }

  /** A generated pair makes a manager, whose tokens verify under its own public key and under no other pair's. */
  lemma GeneratedKeyWorks(seed: nat, other: nat, claims: string)
    ensures NewManager(GenerateKey(seed)).Some? && NewManager(GenerateKey(other)).Some?
    ensures Verifies(NewManager(GenerateKey(other)).value.publicKey, Sign(NewManager(GenerateKey(seed)).value, claims)) <==> seed == other
    ensures Sign(NewManager(GenerateKey(seed)).value, claims).claims == claims
  {
  }

  // ---- The machine ----------------------------------------------------------------

  /**
   lookers saw that there is no secret; readers hold a copy of it, on the way to a
   ConfigMap or to a signed request; jwks is the key in each compute ConfigMap.
   */
  datatype State = State(
    secret: Option<Secret>,
    lookers: set<nat>,
    readers: map<nat, Secret>,
    jwks: map<string, PublicKey>,
    tokens: seq<Token>)

  datatype Step =
    | Look(w: nat)
    | Create(w: nat, seed: nat, rejected: bool)
    | ReadSecret(r: nat)
    | PutConfigMap(r: nat, branch: string)
    | PostSpec(r: nat, claims: string)

  const INIT := State(None, {}, map[], map[], [])

  function Next(s: State, step: Step): State {
    match step
    case Look(w) => if s.secret.None? then s.(lookers := s.lookers + {w}) else s
    case Create(w, seed, rejected) =>
      if w !in s.lookers then s
      else if rejected || s.secret.Some? then s.(lookers := s.lookers - {w})
      else s.(lookers := s.lookers - {w}, secret := Some(GenerateKey(seed)))
    case ReadSecret(r) => if s.secret.Some? then s.(readers := s.readers[r := s.secret.value]) else s
    case PutConfigMap(r, branch) =>
      if r in s.readers && NewManager(s.readers[r]).Some?
      then s.(jwks := s.jwks[branch := NewManager(s.readers[r]).value.publicKey], readers := s.readers - {r})
      else s
    case PostSpec(r, claims) =>
      if r in s.readers && NewManager(s.readers[r]).Some?
      then s.(tokens := s.tokens + [Sign(NewManager(s.readers[r]).value, claims)], readers := s.readers - {r})
      else s
  }

  function Run(s: State, steps: seq<Step>): State
    decreases |steps|
  {
    if steps == [] then s else Run(Next(s, steps[0]), steps[1..])
  }

  /** Everything that was ever derived from the secret comes from the one pair. */
  ghost predicate OnePair(s: State) {
    match s.secret
    case None => s.readers == map[] && s.jwks == map[] && s.tokens == []
    case Some(secret) =>
      && secret.publicPem.Some? && secret == GenerateKey(secret.publicPem.value.seed)
      && (forall r :: r in s.readers ==> s.readers[r] == secret)
      && (forall b :: b in s.jwks ==> Some(s.jwks[b]) == secret.publicPem)
      && (forall i :: 0 <= i < |s.tokens| ==> Some(s.tokens[i].signer) == secret.privatePem)
  }

  lemma {:induction false} RunKeepsOnePair(s: State, steps: seq<Step>)
    requires OnePair(s)
    ensures OnePair(Run(s, steps))
    ensures s.secret.Some? ==> Run(s, steps).secret == s.secret
    ensures s.tokens <= Run(s, steps).tokens
    decreases |steps|
  {
    if steps != [] {
      OnePairStep(s, steps[0]);
      RunKeepsOnePair(Next(s, steps[0]), steps[1..]);
    }
  }

  lemma OnePairStep(s: State, step: Step)
    requires OnePair(s)
    ensures OnePair(Next(s, step))
    ensures s.secret.Some? ==> Next(s, step).secret == s.secret
    ensures s.tokens <= Next(s, step).tokens
  {
  }

  /** However many reconciles saw no secret, the pair never changes after its first creation. */
  lemma KeyPairIsStable(before: seq<Step>, after: seq<Step>)
    requires Run(INIT, before).secret.Some?
    ensures Run(Run(INIT, before), after).secret == Run(INIT, before).secret
  {
    RunKeepsOnePair(INIT, before);
    RunKeepsOnePair(Run(INIT, before), after);
  }

  /**
   A token signed at any time verifies under the key that any compute ConfigMap of
   the cluster holds at any time, before or after.
   */
  lemma TokensVerifyUnderEveryConfigMap(before: seq<Step>, after: seq<Step>, token: Token, branch: string)
    ensures var early := Run(INIT, before);
            var late := Run(early, after);
            && (token in early.tokens && branch in late.jwks ==> Verifies(late.jwks[branch], token))
            && (token in late.tokens && branch in early.jwks ==> Verifies(early.jwks[branch], token))
  {
    RunKeepsOnePair(INIT, before);
    var early := Run(INIT, before);
    RunKeepsOnePair(early, after);
  }

  /** The steps do take effect: the first creation that gets through makes the pair, and whoever reads it puts it to use. */
  lemma KeysAreMadeAndUsed(s: State, w: nat, seed: nat, r: nat, branch: string, claims: string)
    requires OnePair(s)
    ensures s.secret.None? ==> Next(Next(s, Look(w)), Create(w, seed, false)).secret == Some(GenerateKey(seed))
    ensures s.secret.Some? ==>
              var read := Next(s, ReadSecret(r));
              && branch in Next(read, PutConfigMap(r, branch)).jwks
              && Some(Next(read, PutConfigMap(r, branch)).jwks[branch]) == s.secret.value.publicPem
              && Next(read, PostSpec(r, claims)).tokens == s.tokens + [Token(claims, s.secret.value.privatePem.value)]
  {
  }

  // ---- reconcileJWTKeys -----------------------------------------------------------

  class SecretStore {
    var secret: Option<Secret>

    method Get(fails: bool) returns (r: Read<Secret>)
      ensures r == if fails then ReadFailed("") else if secret.Some? then Found(secret.value) else NotFound
    {
      if fails {
        return ReadFailed("");
      }
      return if secret.Some? then Found(secret.value) else NotFound;
    }

    /** Create refuses an existing name. */
    method CreateSecret(s: Secret, fails: bool) returns (ok: bool)
      modifies this
      ensures ok <==> !fails && old(secret).None?
      ensures secret == if ok then Some(s) else old(secret)
    {
      if fails || secret.Some? {
        return false;
      }
      secret := Some(s);
      return true;
    }

    /** meanwhile is what another reconcile creates between the Get and the Create, if anything. */
    method ReconcileJWTKeys(seed: nat, getFails: bool, ownerFails: bool, createFails: bool, meanwhile: Option<Secret>) returns (ok: bool)
      modifies this
      ensures old(secret).Some? ==> secret == old(secret) && (ok <==> !getFails)
      ensures old(secret).None? && !getFails && meanwhile.Some? ==> secret == meanwhile && !ok
      ensures old(secret).None? && !getFails && meanwhile.None? ==>
                (ok <==> !ownerFails && !createFails) && secret == (if ok then Some(GenerateKey(seed)) else None)
      ensures getFails ==> !ok && secret == old(secret)
    {
      var got := Get(getFails);
      if got.Found? {
        return true;
      }
      if got.ReadFailed? {
        return false;
      }
      var pair := GenerateKey(seed);
      if meanwhile.Some? {
        secret := meanwhile;
      }
      if ownerFails {
        return false;
      }
      ok := CreateSecret(pair, createFails);
    }
  }
}
