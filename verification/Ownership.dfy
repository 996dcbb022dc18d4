/** Who owns a document, derived from the document alone, and the rules a create or a replace must
    meet so that ownership cannot be taken, lost or diluted. */
module Ownership {
  import opened Text
  import opened Documents

  datatype OwnerError =
    | AmbiguousOwner(signers: set<string>)
    | NoOwner
    | OwnerSignedAs(kids: set<string>)
    | NotSignedByOwner
    | DeclarationDropped
    | OwnerRemoved(keys: set<string>)
    | ConsentMissing(keys: set<string>)
    | CuratorNotOwner(name: string)
    | NeedsMigration

  // ---------------------------------------------------------------------------------------
  // Key sets
  // ---------------------------------------------------------------------------------------

  function EntityKeys(entities: seq<Entity>): set<string> {
    set e | e in entities && Trim(e.key) != "" :: Trim(e.key)
  }

  method EntityKeySet(entities: seq<Entity>) returns (keys: set<string>)
    ensures keys == EntityKeys(entities)
    ensures forall k :: k in keys <==> k != "" && exists e :: e in entities && Trim(e.key) == k
  {
    keys := {};
    for i := 0 to |entities|
      invariant keys == EntityKeys(entities[..i])
    {
      assert entities[..i + 1] == entities[..i] + [entities[i]];
      var k := Trim(entities[i].key);
      if k != "" {
        keys := keys + {k};
      }
    }
    assert entities[..|entities|] == entities;
  }

  function PublisherKeys(publisher: Option<Entity>): set<string> {
    if publisher.Some? && Trim(publisher.value.key) != "" then {Trim(publisher.value.key)} else {}
  }

  /** The keys that signed in `role`. */
  function RoleSigners(role: Role, sigs: seq<Signature>): set<string> {
    set s | s in sigs && s.role == role && Trim(s.kid) != "" :: Trim(s.kid)
  }

  /** The keys that signed in any role but the feed's. */
  function ClientSigners(sigs: seq<Signature>): set<string> {
    set s | s in sigs && s.role != Feed && Trim(s.kid) != "" :: Trim(s.kid)
  }

  /** Declared owners win; otherwise the owner-role signers are the owners. */
  function Owners(declared: set<string>, role: Role, sigs: seq<Signature>): set<string> {
    if declared != {} then declared else RoleSigners(role, sigs)
  }

  method OwnerSet(declared: set<string>, role: Role, sigs: seq<Signature>) returns (keys: set<string>)
    ensures keys == Owners(declared, role, sigs)
    ensures declared != {} ==> keys == declared
    ensures declared == {} ==>
              forall k :: k in keys <==> k != "" && exists s :: s in sigs && s.role == role && Trim(s.kid) == k
  {
    if |declared| > 0 {
      return declared;
    }
    keys := {};
    for i := 0 to |sigs|
      invariant keys == RoleSigners(role, sigs[..i])
    {
      assert sigs[..i + 1] == sigs[..i] + [sigs[i]];
      if sigs[i].role != role {
        continue;
      }
      var k := Trim(sigs[i].kid);
      if k != "" {
        keys := keys + {k};
      }
    }
    assert sigs[..|sigs|] == sigs;
  }

  method ClientSignerKeySet(sigs: seq<Signature>) returns (keys: set<string>)
    ensures keys == ClientSigners(sigs)
    ensures forall k :: k in keys <==> k != "" && exists s :: s in sigs && s.role != Feed && Trim(s.kid) == k
  {
    keys := {};
    for i := 0 to |sigs|
      invariant keys == ClientSigners(sigs[..i])
    {
      assert sigs[..i + 1] == sigs[..i] + [sigs[i]];
      if sigs[i].role == Feed {
        continue;
      }
      var k := Trim(sigs[i].kid);
      if k != "" {
        keys := keys + {k};
      }
    }
    assert sigs[..|sigs|] == sigs;
  }

  // ---------------------------------------------------------------------------------------
  // Groups: the display name that may name an owner
  // ---------------------------------------------------------------------------------------

  /** The key a group's `curator` string names, when it names one of the group's client signers. */
  function LegacyGroupOwner(curator: string, sigs: seq<Signature>): Option<string> {
    var legacy := Trim(curator);
    if legacy != "" && legacy in ClientSigners(sigs) then Some(legacy) else None
  }

  function GroupCuratorConsistent(curator: string, sigs: seq<Signature>): Outcome<OwnerError> {
    var c := Trim(curator);
    if c == "" then Pass
    else if c !in ClientSigners(sigs) then Pass
    else if c in Owners({}, Curator, sigs) then Pass
    else Fail(CuratorNotOwner(c))
  }

  /** The owners of a stored group; None when no key can be established as the owner. */
  function StoredGroupOwners(curator: string, sigs: seq<Signature>): Option<set<string>> {
    match LegacyGroupOwner(curator, sigs)
    case Some(legacy) => Some({legacy})
    case None =>
      var signers := Owners({}, Curator, sigs);
      if |signers| <= 1 then Some(signers) else None
  }

  // ---------------------------------------------------------------------------------------
  // The rules
  // ---------------------------------------------------------------------------------------

  function Unambiguous(declared: set<string>, role: Role, sigs: seq<Signature>): Outcome<OwnerError> {
    if declared != {} || |RoleSigners(role, sigs)| <= 1 then Pass
    else Fail(AmbiguousOwner(RoleSigners(role, sigs)))
  }

  /** No two entries in the role are by different keys. */
  predicate OneSigner(role: Role, sigs: seq<Signature>) {
    forall s, t :: s in sigs && t in sigs && s.role == role && t.role == role && Trim(s.kid) != "" && Trim(t.kid) != ""
      ==> Trim(s.kid) == Trim(t.kid)
  }

  lemma OneSignerMeans(role: Role, sigs: seq<Signature>)
    ensures OneSigner(role, sigs) <==> |RoleSigners(role, sigs)| <= 1
  {
    var signers := RoleSigners(role, sigs);
    if |signers| > 1 {
      var j :| j in signers;
      assert |signers - {j}| == |signers| - 1;
      var k :| k in signers - {j};
      var s :| s in sigs && s.role == role && Trim(s.kid) == j;
      var t :| t in sigs && t.role == role && Trim(t.kid) == k;
    } else {
      forall s, t | s in sigs && t in sigs && s.role == role && t.role == role && Trim(s.kid) != ""
                      && Trim(t.kid) != ""
        ensures Trim(s.kid) == Trim(t.kid)
      {
        AtMostOne(signers, Trim(s.kid));
        AtMostOne(signers, Trim(t.kid));
      }
    }
  }

  method RequireUnambiguousOwner(declared: set<string>, role: Role, sigs: seq<Signature>)
    returns (r: Outcome<OwnerError>)
    ensures r == Unambiguous(declared, role, sigs)
    ensures r.Pass? <==> declared != {} || OneSigner(role, sigs)
  {
    if |declared| > 0 {
      return Pass;
    }
    var signers := OwnerSet({}, role, sigs);
    OneSignerMeans(role, sigs);
    if |signers| <= 1 {
      return Pass;
    }
    return Fail(AmbiguousOwner(signers));
  }

  /** Some entry is by an owner key acting in the owner role. */
  predicate SignedByOwner(owners: set<string>, role: Role, sigs: seq<Signature>) {
    exists s :: s in sigs && Trim(s.kid) in owners && s.role == role
  }

  function OwnerKidsIn(owners: set<string>, sigs: seq<Signature>): set<string> {
    set s | s in sigs && Trim(s.kid) in owners :: s.kid
  }

  function OwnerSignature(owners: set<string>, role: Role, sigs: seq<Signature>): Outcome<OwnerError> {
    if owners == {} then Fail(NoOwner)
    else if SignedByOwner(owners, role, sigs) then Pass
    else if OwnerKidsIn(owners, sigs) != {} then Fail(OwnerSignedAs(OwnerKidsIn(owners, sigs)))
    else Fail(NotSignedByOwner)
  }

  method RequireOwnerSignature(owners: set<string>, role: Role, sigs: seq<Signature>)
    returns (r: Outcome<OwnerError>)
    ensures r == OwnerSignature(owners, role, sigs)
    ensures r.Pass? <==> exists s :: s in sigs && Trim(s.kid) in owners && s.role == role
    ensures r == Outcome.Fail(NoOwner) <==> owners == {}
    ensures r == Outcome.Fail(NotSignedByOwner) <==> owners != {} && forall s :: s in sigs ==> Trim(s.kid) !in owners
  {
    if |owners| == 0 {
      return Fail(NoOwner);
    }
    var wrongRole: set<string> := {};
    for i := 0 to |sigs|
      invariant !SignedByOwner(owners, role, sigs[..i])
      invariant wrongRole == OwnerKidsIn(owners, sigs[..i])
    {
      assert sigs[..i + 1] == sigs[..i] + [sigs[i]];
      if Trim(sigs[i].kid) !in owners {
        continue;
      }
      if sigs[i].role == role {
        assert sigs[i] in sigs;
        return Pass;
      }
      wrongRole := wrongRole + {sigs[i].kid};
    }
    assert sigs[..|sigs|] == sigs;
    assert forall s :: s in sigs && Trim(s.kid) in owners ==> s.kid in OwnerKidsIn(owners, sigs);
    if |wrongRole| > 0 {
      return Fail(OwnerSignedAs(wrongRole));
    }
    return Fail(NotSignedByOwner);
  }

  function DeclarationRetained(stored: set<string>, incoming: set<string>): Outcome<OwnerError> {
    if stored != {} && incoming == {} then Fail(DeclarationDropped) else Pass
  }

  function OwnersRetained(stored: set<string>, incoming: set<string>): Outcome<OwnerError> {
    if stored <= incoming then Pass else Fail(OwnerRemoved(stored - incoming))
  }

  /** The members of `keys` outside `allowed`, found by walking `keys` once. */
  method Outside(keys: set<string>, allowed: set<string>) returns (missing: set<string>)
    ensures missing == keys - allowed
    ensures missing == {} <==> keys <= allowed
  {
    missing := {};
    var left := keys;
    while left != {}
      invariant left <= keys
      invariant missing == (keys - left) - allowed
      decreases left
    {
      var k :| k in left;
      if k !in allowed {
        missing := missing + {k};
      }
      left := left - {k};
    }
    assert missing == {} ==> forall k :: k in keys ==> k in missing || k in allowed;
  }

  method RequireOwnersRetained(stored: set<string>, incoming: set<string>) returns (r: Outcome<OwnerError>)
    ensures r == OwnersRetained(stored, incoming)
    ensures r.Pass? <==> forall k :: k in stored ==> k in incoming
  {
    var removed := Outside(stored, incoming);
    if |removed| == 0 {
      return Pass;
    }
    return Fail(OwnerRemoved(removed));
  }

  function RegimeConsent(storedDeclared: set<string>, incomingDeclared: set<string>, stored: set<string>,
                         role: Role, sigs: seq<Signature>): Outcome<OwnerError> {
    if storedDeclared != {} || incomingDeclared == {} || stored <= RoleSigners(role, sigs) then Pass
    else Fail(ConsentMissing(stored - RoleSigners(role, sigs)))
  }

  method RequireRegimeTransitionConsent(storedDeclared: set<string>, incomingDeclared: set<string>,
                                        stored: set<string>, role: Role, sigs: seq<Signature>)
    returns (r: Outcome<OwnerError>)
    ensures r == RegimeConsent(storedDeclared, incomingDeclared, stored, role, sigs)
    ensures r.Pass? <==>
              (storedDeclared == {} && incomingDeclared != {} ==>
                 forall k :: k in stored ==> k != "" && exists s :: s in sigs && s.role == role && Trim(s.kid) == k)
  {
    if |storedDeclared| > 0 || |incomingDeclared| == 0 {
      return Pass;
    }
    var signed := OwnerSet({}, role, sigs);
    var missing := Outside(stored, signed);
    if |missing| == 0 {
      return Pass;
    }
    return Fail(ConsentMissing(missing));
  }

  function NewOwnerConsent(stored: set<string>, incoming: set<string>, role: Role, sigs: seq<Signature>)
    : Outcome<OwnerError>
  {
    if incoming - stored <= RoleSigners(role, sigs) then Pass
    else Fail(ConsentMissing(incoming - stored - RoleSigners(role, sigs)))
  }

  method RequireNewOwnerConsent(stored: set<string>, incoming: set<string>, role: Role, sigs: seq<Signature>)
    returns (r: Outcome<OwnerError>)
    ensures r == NewOwnerConsent(stored, incoming, role, sigs)
    ensures r.Pass? <==>
              forall k :: k in incoming && k !in stored ==>
                k != "" && exists s :: s in sigs && s.role == role && Trim(s.kid) == k
  {
    var signed := OwnerSet({}, role, sigs);
    var unsigned := Outside(incoming, stored + signed);
    assert incoming - (stored + signed) == incoming - stored - signed;
    if |unsigned| == 0 {
      return Pass;
    }
    return Fail(ConsentMissing(unsigned));
  }

  // ---------------------------------------------------------------------------------------
  // Owners of a whole document
  // ---------------------------------------------------------------------------------------

  function OwnerRole(table: Table): Role {
    if table == Channels then Publisher else Curator
  }

  function Declared(table: Table, payload: Payload): set<string> {
    match table
    case Playlists => EntityKeys(payload.curators)
    case Groups => {}
    case Channels => PublisherKeys(payload.publisher)
  }

  /** The owner set the service derives from a stored document; None when it fails closed. */
  function StoredOwners(table: Table, doc: Document): Option<set<string>> {
    if table == Groups then StoredGroupOwners(doc.payload.curator, doc.signatures)
    else Some(Owners(Declared(table, doc.payload), OwnerRole(table), doc.signatures))
  }

  /** A signature in the owner role is by an owner exactly when an owner key is among the signers. */
  lemma SignedByOwnerIsMembership(owners: set<string>, role: Role, sigs: seq<Signature>)
    requires "" !in owners
    ensures SignedByOwner(owners, role, sigs) <==> owners * RoleSigners(role, sigs) != {}
  {
    if SignedByOwner(owners, role, sigs) {
      var s :| s in sigs && Trim(s.kid) in owners && s.role == role;
      assert Trim(s.kid) in owners * RoleSigners(role, sigs);
    }
    if owners * RoleSigners(role, sigs) != {} {
      var k :| k in owners * RoleSigners(role, sigs);
    }
  }

  lemma OwnersNonBlank(table: Table, doc: Document)
    ensures StoredOwners(table, doc).Some? ==> "" !in StoredOwners(table, doc).value
  {
  }

  /** The only element of a set of at most one. */
  lemma AtMostOne(s: set<string>, k: string)
    requires |s| <= 1 && k in s
    ensures s == {k}
  {
    assert |s - {k}| == |s| - 1;
  }
}
