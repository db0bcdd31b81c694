/**
  Operator approval documents: what canonical bytes are, and which bytes are
  accepted. The text stands for its UTF-8 bytes.
 */
module ApprovalDocument {
  import opened Options
  import opened Decimals
  import opened Json
  import opened JsonSyntax
  import opened JsonText

  datatype Purpose = Revalidation | Activation | ValidationRecovery | RoutingRecovery

  function Domain(p: Purpose): string {
    match p
    case Revalidation => "native-release-revalidation"
    case Activation => "native-release-activation"
    case ValidationRecovery => "validation-controller-defect-recovery"
    case RoutingRecovery => "stale-review-routing-recovery"
  }

  function Operation(p: Purpose): string {
    match p
    case Revalidation => "revalidate-native-release"
    case Activation => "activate-native-release"
    case ValidationRecovery => "recover-validation-controller-defect"
    case RoutingRecovery => "supersede-stale-routing"
  }

  const REQUIRED: set<Text> := {
    Of("domain"), Of("version"), Of("operation"), Of("request_id"), Of("nonce"), Of("operator_id"), Of("reason"), Of("authority")
  }

  /** A string with something in it. */
  predicate Filled(d: Document) {
    d.Str? && exists i :: 0 <= i < |d.text| && !IsPythonSpace(d.text[i])
  }

  /** In Python True == 1, so a version of true passes. */
  predicate IsVersionOne(d: Document) {
    d == Int(1) || d == Bool(true)
  }

  predicate Valid(d: Document, p: Purpose) {
    && d.Object? && d.members.Keys == REQUIRED
    && d.members[Of("domain")] == Str(Of(Domain(p)))
    && IsVersionOne(d.members[Of("version")])
    && d.members[Of("operation")] == Str(Of(Operation(p)))
    && Filled(d.members[Of("request_id")]) && Filled(d.members[Of("nonce")])
    && Filled(d.members[Of("operator_id")]) && Filled(d.members[Of("reason")])
    && d.members[Of("authority")].Object? && d.members[Of("authority")].members != map[]
  }

  ghost function CanonicalBytes(d: Document, p: Purpose): Option<Text> {
    if Valid(d, p) then Some(Dumps(d)) else None
  }

  predicate Says(d: Document, p: Purpose)
    requires d.Object?
  {
    && Of("domain") in d.members && d.members[Of("domain")] == Str(Of(Domain(p)))
    && Of("operation") in d.members && d.members[Of("operation")] == Str(Of(Operation(p)))
  }

  /** The purpose a document is checked for. */
  function Claimed(d: Document): Purpose
    requires d.Object?
  {
    if Says(d, Activation) then Activation
    else if Says(d, ValidationRecovery) then ValidationRecovery
    else if Says(d, RoutingRecovery) then RoutingRecovery
    else Revalidation
  }

  ghost function ParseApprovalDocument(raw: Text): Option<Document> {
    var d :- Loads(raw);
    if !d.Object? then None
    else
      var canonical :- CanonicalBytes(d, Claimed(d));
      if canonical != raw then None else Some(d)
  }

  lemma DomainsDiffer(p: Purpose, q: Purpose)
    requires Of(Domain(p)) == Of(Domain(q))
    ensures p == q
  {
    OfIsInjective(Domain(p), Domain(q));
    assert |Domain(p)| == |Domain(q)|;
  }

  lemma ValidSays(d: Document, p: Purpose)
    requires Valid(d, p)
    ensures d.Object? && d.members.Keys == REQUIRED && Of("domain") in d.members
    ensures d.members[Of("domain")] == Str(Of(Domain(p))) && Says(d, p)
  {
  }

  /** A valid document is checked for the purpose it is valid for. */
  lemma ValidClaimsIts(d: Document, p: Purpose)
    requires Valid(d, p)
    ensures d.Object? && Claimed(d) == p
  {
    ValidSays(d, p);
    hide Valid;
    forall q | Says(d, q) ensures q == p {
      DomainsDiffer(p, q);
    }
  }

  /** Accepted are exactly the canonical bytes of the valid documents that survive printing. */
  lemma AcceptedIffCanonical(raw: Text, d: Document)
    ensures ParseApprovalDocument(raw) == Some(d) <==> Clean(d) && exists p :: CanonicalBytes(d, p) == Some(raw)
  {
    if ParseApprovalDocument(raw) == Some(d) {
      LoadedIsClean(raw);
      hide Valid, Loads, Dumps, Clean;
    } else if Clean(d) {
      forall p | CanonicalBytes(d, p) == Some(raw) ensures false {
        ValidClaimsIts(d, p);
        LoadsUndoesDumps(d);
        hide Valid, Loads, Dumps, Clean;
      }
    }
  }

  lemma {:induction false} EntryAt(d: Document, keys: seq<Text>, i: nat)
    requires d.Object? && (forall k :: k in keys ==> k in d.members) && i < |keys|
    ensures EntriesOf(d, keys)[i] == Entry(Split(keys[i]), TreeOf(d.members[keys[i]]))
    decreases |keys|
  {
    if i > 0 {
      EntryAt(d, keys[1..], i - 1);
    }
  }

  /** Two documents with one text have members with one tree. */
  lemma SameTextSameMember(a: Document, b: Document, key: Text)
    requires a.Object? && b.Object? && a.members.Keys == b.members.Keys && key in a.members
    requires Dumps(a) == Dumps(b)
    ensures TreeOf(a.members[key]) == TreeOf(b.members[key])
  {
    hide Dumps, TreeOf, EntriesOf, Split;
    SameTextSameTree(a, b);
    SameTreeSameEntries(a, b);
    var keys := Sorted(a.members.Keys);
    var i :| 0 <= i < |keys| && keys[i] == key;
    EntryAt(a, keys, i);
    EntryAt(b, keys, i);
  }

  lemma SameTreeSameEntries(a: Document, b: Document)
    requires a.Object? && b.Object? && a.members.Keys == b.members.Keys && TreeOf(a) == TreeOf(b)
    ensures EntriesOf(a, Sorted(a.members.Keys)) == EntriesOf(b, Sorted(a.members.Keys))
  {
    hide EntriesOf, TreesOf, Split, Sorted;
    TreeOfObject(a);
    TreeOfObject(b);
  }

  lemma TreeOfObject(d: Document)
    requires d.Object?
    ensures TreeOf(d) == TObject(EntriesOf(d, Sorted(d.members.Keys)))
  {
  }

  lemma LiteralsArePairFree(s: string)
    ensures PairFree(Of(s))
  {
    forall i | 0 <= i < |s| ensures !High(Of(s)[i]) {
      var c: char := s[i];
      assert !(0xD800 <= c as int < 0xDC00);
    }
  }

  /** Bytes made for one purpose are never bytes made for another, whatever else the documents say. */
  lemma PurposesNeverCoincide(a: Document, b: Document, p: Purpose, q: Purpose)
    requires CanonicalBytes(a, p).Some? && CanonicalBytes(a, p) == CanonicalBytes(b, q)
    ensures p == q
  {
    assert Dumps(a) == Dumps(b);
    ValidSays(a, p);
    ValidSays(b, q);
    hide *;
    SameTextSameMember(a, b, Of("domain"));
    StringsOfOneTree(Of(Domain(p)), Of(Domain(q)));
    LiteralsArePairFree(Domain(p));
    LiteralsArePairFree(Domain(q));
    JoinSplit(Of(Domain(p)));
    JoinSplit(Of(Domain(q)));
    DomainsDiffer(p, q);
  }

  lemma StringsOfOneTree(x: Text, y: Text)
    requires TreeOf(Str(x)) == TreeOf(Str(y))
    ensures Split(x) == Split(y)
  {
  }

  /** The bytes accepted say which document was signed. */
  lemma AcceptedBytesAreOneDocument(raw: Text, other: Text)
    requires ParseApprovalDocument(raw).Some? && ParseApprovalDocument(raw) == ParseApprovalDocument(other)
    ensures raw == other && Dumps(ParseApprovalDocument(raw).value) == raw
  {
    hide *;
    var p := AcceptedIsValidClean(raw, ParseApprovalDocument(raw).value);
    var q := AcceptedIsValidClean(other, ParseApprovalDocument(raw).value);
  }

  /** The fields that must say something, as written. */
  const SPOKEN: seq<string> := ["request_id", "nonce", "operator_id", "reason"]

  lemma ValidIsComplete(d: Document, p: Purpose)
    requires Valid(d, p)
    ensures d.Object? && d.members.Keys == REQUIRED && Of("authority") in d.members
    ensures Of("domain") in d.members && d.members[Of("domain")] == Str(Of(Domain(p)))
    ensures Of("operation") in d.members && d.members[Of("operation")] == Str(Of(Operation(p)))
    ensures d.members[Of("authority")].Object? && d.members[Of("authority")].members != map[]
  {
    hide Of, Filled, Domain, Operation;
  }

  lemma ValidSpeaks(d: Document, p: Purpose, name: string)
    requires Valid(d, p) && name in SPOKEN
    ensures d.Object? && Of(name) in d.members && Filled(d.members[Of(name)])
  {
    hide Of, Filled, Domain, Operation;
  }

  /** Whatever is accepted has the eight fields and no other, names one purpose twice, and leaves nothing blank. */
  lemma AcceptedIsComplete(raw: Text, d: Document)
    requires ParseApprovalDocument(raw) == Some(d)
    ensures d.Object? && d.members.Keys == REQUIRED && {Of("domain"), Of("operation"), Of("authority")} <= d.members.Keys
    ensures exists p :: d.members[Of("domain")] == Str(Of(Domain(p))) && d.members[Of("operation")] == Str(Of(Operation(p)))
    ensures forall name :: name in SPOKEN ==>
      && Of(name) in d.members && d.members[Of(name)].Str?
      && exists i :: 0 <= i < |d.members[Of(name)].text| && !IsPythonSpace(d.members[Of(name)].text[i])
    ensures d.members[Of("authority")].Object? && d.members[Of("authority")].members != map[]
  {
    var p := AcceptedIsValidClean(raw, d);
    hide ParseApprovalDocument, Clean, Dumps, Valid, Of, REQUIRED;
    ValidIsComplete(d, p);
    forall name | name in SPOKEN
      ensures Of(name) in d.members && Filled(d.members[Of(name)])
    {
      ValidSpeaks(d, p, name);
    }
  }

  // ----- A version of true -----

  /** Version 1 written the other way. */
  function WithOtherVersion(d: Document): Document {
    if d.Object? && Of("version") in d.members
    then d.(members := d.members[Of("version") := if d.members[Of("version")] == Int(1) then Bool(true) else Int(1)])
    else d
  }

  lemma VersionIsAmong(d: Document, p: Purpose)
    requires Valid(d, p)
    ensures d.Object? && Of("version") in d.members
    ensures d.members[Of("version")] == Int(1) || d.members[Of("version")] == Bool(true)
  {
  }

  lemma OtherVersionIsValid(d: Document, p: Purpose)
    requires Valid(d, p) && Clean(d)
    ensures Valid(WithOtherVersion(d), p) && Clean(WithOtherVersion(d)) && WithOtherVersion(d) != d
  {
    hide Domain, Operation, Filled, PairFree;
    NamesDiffer();
  }

  lemma NamesDiffer()
    ensures forall name :: name in ["domain", "operation", "request_id", "nonce", "operator_id", "reason", "authority"] ==> Of(name) != Of("version")
  {
    forall name | name in ["domain", "operation", "request_id", "nonce", "operator_id", "reason", "authority"]
      ensures Of(name) != Of("version")
    {
      if Of(name) == Of("version") {
        OfIsInjective(name, "version");
      }
    }
  }

  lemma ValidCleanIsAccepted(d: Document, p: Purpose)
    requires Valid(d, p) && Clean(d)
    ensures ParseApprovalDocument(Dumps(d)) == Some(d)
  {
    assert CanonicalBytes(d, p) == Some(Dumps(d));
    AcceptedIffCanonical(Dumps(d), d);
  }

  lemma AcceptedIsValidClean(raw: Text, d: Document) returns (p: Purpose)
    requires ParseApprovalDocument(raw) == Some(d)
    ensures Valid(d, p) && Clean(d) && raw == Dumps(d)
  {
    AcceptedIffCanonical(raw, d);
    p :| CanonicalBytes(d, p) == Some(raw);
  }

  /**
    The version of an accepted document is 1 or true, and whichever it is, the
    bytes with the other one are accepted too, though they are other bytes.
   */
  lemma VersionMayBeTrue(raw: Text, d: Document)
    requires ParseApprovalDocument(raw) == Some(d)
    ensures d.Object? && Of("version") in d.members
    ensures d.members[Of("version")] == Int(1) || d.members[Of("version")] == Bool(true)
    ensures exists twin :: twin != raw && ParseApprovalDocument(twin) == Some(WithOtherVersion(d))
  {
    hide *;
    var p := AcceptedIsValidClean(raw, d);
    VersionIsAmong(d, p);
    OtherVersionIsValid(d, p);
    ValidCleanIsAccepted(WithOtherVersion(d), p);
    if Dumps(WithOtherVersion(d)) == raw {
      DumpsIsInjective(d, WithOtherVersion(d));
    }
  }

  /** A document for a purpose, everything but its version filled in shortly. */
  function Short(p: Purpose, version: Document): Document {
    Object(map name | name in REQUIRED :: Field(p, version, name))
  }

  function Field(p: Purpose, version: Document, name: Text): Document {
    if name == Of("domain") then Str(Of(Domain(p)))
    else if name == Of("version") then version
    else if name == Of("operation") then Str(Of(Operation(p)))
    else if name == Of("authority") then Object(map[Of("a") := Null])
    else Str(Of("x"))
  }

  lemma ShortMember(p: Purpose, version: Document, name: string)
    requires name !in ["domain", "version", "operation", "authority"]
    ensures Filled(Field(p, version, Of(name)))
  {
    hide Domain, Operation;
    forall other | Of(name) == Of(other) ensures name == other {
      OfIsInjective(name, other);
    }
    assert !IsPythonSpace(Of("x")[0]);
  }

  lemma ShortSays(p: Purpose, version: Document)
    ensures var members := Short(p, version).members;
      && members.Keys == REQUIRED
      && members[Of("domain")] == Str(Of(Domain(p)))
      && members[Of("version")] == version
      && members[Of("operation")] == Str(Of(Operation(p)))
      && members[Of("authority")] == Object(map[Of("a") := Null])
  {
    assert Of("authority")[0] != Of("operation")[0];
  }

  lemma ShortIsValid(p: Purpose, version: Document)
    requires IsVersionOne(version)
    ensures Valid(Short(p, version), p)
  {
    ShortSays(p, version);
    ShortMember(p, version, "request_id");
    ShortMember(p, version, "nonce");
    ShortMember(p, version, "operator_id");
    ShortMember(p, version, "reason");
    var authority: map<Text, Document> := map[Of("a") := Null];
    assert Of("a") in authority;
    hide Field, Filled, Of, Domain, Operation;
  }

  lemma FieldIsClean(p: Purpose, version: Document, name: Text)
    requires IsVersionOne(version)
    ensures Clean(Field(p, version, name))
  {
    LiteralsArePairFree(Domain(p));
    LiteralsArePairFree(Operation(p));
    LiteralsArePairFree("a");
    LiteralsArePairFree("x");
    hide Domain, Operation, PairFree, Of;
  }

  lemma NamesArePairFree()
    ensures forall name :: name in REQUIRED ==> PairFree(name)
  {
    forall s: string ensures PairFree(Of(s)) {
      LiteralsArePairFree(s);
    }
    hide PairFree, Of;
  }

  lemma ShortIsClean(p: Purpose, version: Document)
    requires IsVersionOne(version)
    ensures Clean(Short(p, version))
  {
    hide PairFree, Of, Field, REQUIRED;
    NamesArePairFree();
    forall name ensures Clean(Field(p, version, name)) {
      FieldIsClean(p, version, name);
    }
  }

  /** Both occur, for every purpose. */
  lemma BothVersionsOccur(p: Purpose)
    ensures ParseApprovalDocument(Dumps(Short(p, Int(1)))) == Some(Short(p, Int(1)))
    ensures ParseApprovalDocument(Dumps(Short(p, Bool(true)))) == Some(Short(p, Bool(true)))
  {
    forall version | IsVersionOne(version)
      ensures ParseApprovalDocument(Dumps(Short(p, version))) == Some(Short(p, version))
    {
      ShortIsValid(p, version);
      ShortIsClean(p, version);
      ValidCleanIsAccepted(Short(p, version), p);
    }
    hide ParseApprovalDocument, Dumps, Short;
  }
}
