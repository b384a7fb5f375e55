/** The diagnostics the validator records. Each message of the source
    becomes a value naming what it is about (the document, the entity at an
    index, or the relationship at an index), the field concerned, and the
    problem with the offending value where the message cites one. */
module Diagnostics {
  import opened JsonValues

  datatype Subject = Document | Entity(index: nat) | Relationship(index: nat)

  datatype Field =
    | Root | Entities | Relationships | Metadata
    | CanonicalId | Type | FullName | Mentions | Attributes
    | Role | OrganizationKind | ObjectType | LocationType
    | SourceId | TargetId | RelationType

  datatype Problem =
    | Missing
    | NotNonEmptyString
    | BadFormat(id: string)
    | NotArray
    | NotObject
    | NotAllStrings
    | Invalid(value: Json)
    | NonStandard(value: Json)
    | NotFound(value: Json)

  datatype Diag = Diag(subject: Subject, field: Field, problem: Problem)

  predicate IsAbout(d: Diag, subject: Subject, field: Field)
  {
    d.subject == subject && d.field == field
  }

  /** How many of the diagnostics concern `field` of `subject`. */
  function CountAbout(ds: seq<Diag>, subject: Subject, field: Field): (n: nat)
    ensures n <= |ds|
  {
    if ds == [] then 0
    else (if IsAbout(ds[0], subject, field) then 1 else 0) + CountAbout(ds[1..], subject, field)
  }

  /** Counting distributes over appending diagnostics. */
  lemma {:induction false} CountConcat(a: seq<Diag>, b: seq<Diag>, subject: Subject, field: Field)
    ensures CountAbout(a + b, subject, field) == CountAbout(a, subject, field) + CountAbout(b, subject, field)
  {
    if a != [] {
      assert (a + b)[1..] == a[1..] + b;
      CountConcat(a[1..], b, subject, field);
    } else {
      assert a + b == b;
    }
  }

  /** An empty list, or a single diagnostic about `field` of `subject`. */
  predicate AtMostOneAbout(ds: seq<Diag>, subject: Subject, field: Field)
  {
    |ds| <= 1 && (ds != [] ==> IsAbout(ds[0], subject, field))
  }

  /** A list of at most one diagnostic, about `field` of `subject`, counts
      in full for that pair and not at all for any other. */
  lemma CountAtMostOne(ds: seq<Diag>, subject: Subject, field: Field, s: Subject, f: Field)
    requires AtMostOneAbout(ds, subject, field)
    ensures CountAbout(ds, s, f) == if subject == s && field == f then |ds| else 0
  {
    if ds != [] {
      assert ds[1..] == [];
    }
  }

  /** Appending such a list adds its length to the count of its own pair only. */
  lemma CountStep(prefix: seq<Diag>, part: seq<Diag>, subject: Subject, field: Field, s: Subject, f: Field)
    requires AtMostOneAbout(part, subject, field)
    ensures CountAbout(prefix + part, s, f) ==
      CountAbout(prefix, s, f) + if subject == s && field == f then |part| else 0
  {
    CountConcat(prefix, part, s, f);
    CountAtMostOne(part, subject, field, s, f);
  }

  /** Four checks, each reporting at most once on its own field of `subject`. */
  lemma CountFour(a: seq<Diag>, b: seq<Diag>, c: seq<Diag>, d: seq<Diag>, subject: Subject,
                  fa: Field, fb: Field, fc: Field, fd: Field, s: Subject, f: Field)
    requires AtMostOneAbout(a, subject, fa) && AtMostOneAbout(b, subject, fb)
    requires AtMostOneAbout(c, subject, fc) && AtMostOneAbout(d, subject, fd)
    ensures CountAbout(a + b + c + d, s, f) ==
      (if subject == s && fa == f then |a| else 0) + (if subject == s && fb == f then |b| else 0) +
      (if subject == s && fc == f then |c| else 0) + (if subject == s && fd == f then |d| else 0)
  {
    CountAtMostOne(a, subject, fa, s, f);
    CountStep(a, b, subject, fb, s, f);
    CountStep(a + b, c, subject, fc, s, f);
    CountStep(a + b + c, d, subject, fd, s, f);
  }

  /** Five such checks. */
  lemma CountFive(a: seq<Diag>, b: seq<Diag>, c: seq<Diag>, d: seq<Diag>, e: seq<Diag>, subject: Subject,
                  fa: Field, fb: Field, fc: Field, fd: Field, fe: Field, s: Subject, f: Field)
    requires AtMostOneAbout(a, subject, fa) && AtMostOneAbout(b, subject, fb)
    requires AtMostOneAbout(c, subject, fc) && AtMostOneAbout(d, subject, fd)
    requires AtMostOneAbout(e, subject, fe)
    ensures CountAbout(a + b + c + d + e, s, f) ==
      (if subject == s && fa == f then |a| else 0) + (if subject == s && fb == f then |b| else 0) +
      (if subject == s && fc == f then |c| else 0) + (if subject == s && fd == f then |d| else 0) +
      (if subject == s && fe == f then |e| else 0)
  {
    CountFour(a, b, c, d, subject, fa, fb, fc, fd, s, f);
    CountStep(a + b + c + d, e, subject, fe, s, f);
  }

  /** The diagnostics of a list that are not about `field`, in their order. */
  function WithoutField(ds: seq<Diag>, field: Field): (r: seq<Diag>)
    ensures |r| <= |ds|
    ensures forall k :: 0 <= k < |r| ==> r[k].field != field
    ensures (forall k :: 0 <= k < |ds| ==> ds[k].field != field) ==> r == ds
  {
    if ds == [] then []
    else (if ds[0].field == field then [] else [ds[0]]) + WithoutField(ds[1..], field)
  }

  /** Filtering distributes over appending diagnostics. */
  lemma {:induction false} WithoutFieldConcat(a: seq<Diag>, b: seq<Diag>, field: Field)
    ensures WithoutField(a + b, field) == WithoutField(a, field) + WithoutField(b, field)
  {
    if a != [] {
      assert (a + b)[1..] == a[1..] + b;
      WithoutFieldConcat(a[1..], b, field);
    } else {
      assert a + b == b;
    }
  }

  /** A list of at most one diagnostic about `g` loses it when `g` is
      filtered out and keeps it otherwise. */
  lemma WithoutFieldAtMostOne(ds: seq<Diag>, subject: Subject, g: Field, field: Field)
    requires AtMostOneAbout(ds, subject, g)
    ensures WithoutField(ds, field) == if g == field then [] else ds
  {
    if ds != [] {
      assert ds[1..] == [];
    }
  }

  /** Associativity of appending, stated for the instances the loops of the
      validator need so that their proofs do not search for it. */
  lemma AppendAssoc(a: seq<Diag>, b: seq<Diag>, c: seq<Diag>)
    ensures (a + b) + c == a + (b + c)
  {
  }
}
