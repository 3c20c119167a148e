/**
 * The "find a doctor" page: backend rows formatted with defaults, a case-insensitive
 * search combined with an exact specialization facet, and a stable sort by rating, fee or
 * experience.
 */
module DoctorSearch {
  import opened Wrappers
  import opened Text
  import opened Seqs

  const FetchFailed := "Failed to find doctors. Please try again later."
  const AllSpecializations := "All"
  const DefaultSpecialization := "General Medicine"
  const DefaultHospital := "Private Practice"

  /** A `doctors` row joined with its profile. Rating and fee are whole numbers here. */
  datatype DoctorRow = DoctorRow(
    id: string, fullName: Option<string>, avatarUrl: Option<string>,
    specialization: Option<string>, experienceYears: Option<int>, hospitalClinic: Option<string>,
    consultationFee: Option<int>, rating: Option<int>, isVerified: bool)

  /** A formatted card. The name can still be missing. */
  datatype Doctor = Doctor(
    id: string, name: Option<string>, avatar: Option<string>, specialization: string,
    experience: int, hospital: string, fee: int, rating: int, isVerified: bool)

  /** `x || 0` for an optional number: a missing value and 0 both give 0. */
  function OrZero(x: Option<int>): (r: int)
    ensures x.Some? ==> r == x.value
    ensures x.None? ==> r == 0
  {
    if x.Some? then x.value else 0
  }

  /** The `map` that formats each row. */
  function Format(row: DoctorRow): (d: Doctor)
    ensures d.id == row.id && d.name == row.fullName && d.avatar == row.avatarUrl
    ensures d.specialization == OrElse(row.specialization, DefaultSpecialization) && d.specialization != ""
    ensures d.hospital == OrElse(row.hospitalClinic, DefaultHospital) && d.hospital != ""
    ensures row.experienceYears.None? ==> d.experience == 0
    ensures row.consultationFee.None? ==> d.fee == 0
    ensures row.rating.None? ==> d.rating == 0
    ensures row.rating.Some? ==> d.rating == row.rating.value
    ensures row.consultationFee.Some? ==> d.fee == row.consultationFee.value
    ensures row.experienceYears.Some? ==> d.experience == row.experienceYears.value
  {
    Doctor(row.id, row.fullName, row.avatarUrl,
      OrElse(row.specialization, DefaultSpecialization),
      OrZero(row.experienceYears),
      OrElse(row.hospitalClinic, DefaultHospital),
      OrZero(row.consultationFee),
      OrZero(row.rating),
      row.isVerified)
  }

  function FormatAll(rows: seq<DoctorRow>): (r: seq<Doctor>)
    ensures |r| == |rows| && forall i :: 0 <= i < |rows| ==> r[i] == Format(rows[i])
  {
    seq(|rows|, i requires 0 <= i < |rows| => Format(rows[i]))
  }

  /** The filter: the name or the specialization contains the query, ignoring case, and the
      facet is "All" or equals the specialization exactly. */
  predicate Matches(d: Doctor, query: string, spec: string) {
    var q := ToLower(query);
    ((d.name.Some? && Contains(ToLower(d.name.value), q)) || Contains(ToLower(d.specialization), q))
    && (spec == AllSpecializations || d.specialization == spec)
  }

  /** Each doctor's place in the order: the comparator is `Key(a) - Key(b)`, so rating and
      experience are negated (highest first) and an unknown key makes everything equal. */
  function Key(d: Doctor, sortBy: string): int {
    if sortBy == "rating" then -d.rating
    else if sortBy == "fee" then d.fee
    else if sortBy == "experience" then -d.experience
    else 0
  }

  predicate Sorted(s: seq<Doctor>, sortBy: string) {
    forall i, j :: 0 <= i < j < |s| ==> Key(s[i], sortBy) <= Key(s[j], sortBy)
  }

  /** Inserts `x` after every element whose key is not greater than its own. */
  function Insert(t: seq<Doctor>, x: Doctor, sortBy: string): (r: seq<Doctor>)
    ensures multiset(r) == multiset(t) + multiset{x}
    decreases |t|
  {
    if t == [] then [x]
    else if Key(t[0], sortBy) > Key(x, sortBy) then [x] + t
    else
      assert t == [t[0]] + t[1..];
      [t[0]] + Insert(t[1..], x, sortBy)
  }

  /** Insertion keeps a lower bound on the keys. */
  lemma {:induction false} InsertKeepsBound(t: seq<Doctor>, x: Doctor, sortBy: string, lb: int)
    requires forall i :: 0 <= i < |t| ==> Key(t[i], sortBy) >= lb
    requires Key(x, sortBy) >= lb
    ensures forall i :: 0 <= i < |Insert(t, x, sortBy)| ==> Key(Insert(t, x, sortBy)[i], sortBy) >= lb
    decreases |t|
  {
    var r := Insert(t, x, sortBy);
    if t == [] {
    } else if Key(t[0], sortBy) > Key(x, sortBy) {
      assert r == [x] + t;
      forall i | 0 <= i < |r| ensures Key(r[i], sortBy) >= lb {
        if i > 0 {
          assert r[i] == t[i - 1];
        }
      }
    } else {
      var rest := Insert(t[1..], x, sortBy);
      assert r == [t[0]] + rest;
      assert forall i :: 0 <= i < |t[1..]| ==> t[1..][i] == t[i + 1];
      InsertKeepsBound(t[1..], x, sortBy, lb);
      forall i | 0 <= i < |r| ensures Key(r[i], sortBy) >= lb {
        if i > 0 {
          assert r[i] == rest[i - 1];
        }
      }
    }
  }

  /** Insertion into a sorted list gives a sorted list. */
  lemma {:induction false} InsertKeepsSorted(t: seq<Doctor>, x: Doctor, sortBy: string)
    requires Sorted(t, sortBy)
    ensures Sorted(Insert(t, x, sortBy), sortBy)
    decreases |t|
  {
    var r := Insert(t, x, sortBy);
    if t == [] {
    } else if Key(t[0], sortBy) > Key(x, sortBy) {
      assert r == [x] + t;
      forall i, j | 0 <= i < j < |r| ensures Key(r[i], sortBy) <= Key(r[j], sortBy) {
        assert r[j] == t[j - 1];
        if i > 0 {
          assert r[i] == t[i - 1];
        } else if j > 1 {
          assert Key(t[0], sortBy) <= Key(t[j - 1], sortBy);
        }
      }
    } else {
      var rest := Insert(t[1..], x, sortBy);
      assert r == [t[0]] + rest;
      assert forall i :: 0 <= i < |t[1..]| ==> t[1..][i] == t[i + 1];
      InsertKeepsSorted(t[1..], x, sortBy);
      InsertKeepsBound(t[1..], x, sortBy, Key(t[0], sortBy));
      forall i, j | 0 <= i < j < |r| ensures Key(r[i], sortBy) <= Key(r[j], sortBy) {
        assert r[j] == rest[j - 1];
        if i > 0 {
          assert r[i] == rest[i - 1];
        }
      }
    }
  }

  /** A stable sort, the behaviour `Array.prototype.sort` guarantees: each element is
      inserted after those before it with an equal key. */
  function SortBy(s: seq<Doctor>, sortBy: string): (r: seq<Doctor>)
    ensures multiset(r) == multiset(s)
    ensures Sorted(r, sortBy)
    decreases |s|
  {
    if s == [] then []
    else
      assert s == s[..|s| - 1] + [s[|s| - 1]];
      InsertKeepsSorted(SortBy(s[..|s| - 1], sortBy), s[|s| - 1], sortBy);
      Insert(SortBy(s[..|s| - 1], sortBy), s[|s| - 1], sortBy)
  }

  /** `filtered`: the matching doctors, then sorted. */
  function Visible(doctors: seq<Doctor>, query: string, spec: string, sortBy: string): (r: seq<Doctor>)
    ensures multiset(r) == multiset(Filter(doctors, d => Matches(d, query, spec)))
    ensures Sorted(r, sortBy)
  {
    SortBy(Filter(doctors, d => Matches(d, query, spec)), sortBy)
  }

  /** The elements of `s` with key `k`, in order. */
  function WithKey(s: seq<Doctor>, sortBy: string, k: int): seq<Doctor>
    decreases |s|
  {
    if s == [] then [] else (if Key(s[0], sortBy) == k then [s[0]] else []) + WithKey(s[1..], sortBy, k)
  }

  lemma {:induction false} WithKeyAppend(a: seq<Doctor>, b: seq<Doctor>, sortBy: string, k: int)
    ensures WithKey(a + b, sortBy, k) == WithKey(a, sortBy, k) + WithKey(b, sortBy, k)
    decreases |a|
  {
    if a == [] {
      assert a + b == b;
    } else {
      var head := if Key(a[0], sortBy) == k then [a[0]] else [];
      assert (a + b)[0] == a[0] && (a + b)[1..] == a[1..] + b;
      WithKeyAppend(a[1..], b, sortBy, k);
      calc {
        WithKey(a + b, sortBy, k);
        head + WithKey(a[1..] + b, sortBy, k);
        head + (WithKey(a[1..], sortBy, k) + WithKey(b, sortBy, k));
        (head + WithKey(a[1..], sortBy, k)) + WithKey(b, sortBy, k);
        WithKey(a, sortBy, k) + WithKey(b, sortBy, k);
      }
    }
  }

  lemma {:induction false} WithKeyNone(s: seq<Doctor>, sortBy: string, k: int)
    requires forall i :: 0 <= i < |s| ==> Key(s[i], sortBy) > k
    ensures WithKey(s, sortBy, k) == []
    decreases |s|
  {
    if s != [] {
      WithKeyNone(s[1..], sortBy, k);
    }
  }

  lemma {:induction false} WithKeyAll(s: seq<Doctor>, sortBy: string, k: int)
    requires forall i :: 0 <= i < |s| ==> Key(s[i], sortBy) == k
    ensures WithKey(s, sortBy, k) == s
    decreases |s|
  {
    if s != [] {
      WithKeyAll(s[1..], sortBy, k);
      assert s == [s[0]] + s[1..];
    }
  }

  /** Inserting in front of larger keys: `x` is the only element with its key. */
  lemma InsertInFrontKeepsTies(t: seq<Doctor>, x: Doctor, sortBy: string, k: int)
    requires t != [] && Sorted(t, sortBy) && Key(t[0], sortBy) > Key(x, sortBy)
    ensures WithKey([x] + t, sortBy, k) == WithKey(t + [x], sortBy, k)
  {
    WithKeyAppend(t, [x], sortBy, k);
    WithKeyAppend([x], t, sortBy, k);
    if k == Key(x, sortBy) {
      WithKeyNone(t, sortBy, k);
    }
  }

  /** Inserting into a sorted list places `x` after every element with its key. */
  lemma {:induction false} InsertKeepsTies(t: seq<Doctor>, x: Doctor, sortBy: string, k: int)
    requires Sorted(t, sortBy)
    ensures WithKey(Insert(t, x, sortBy), sortBy, k) == WithKey(t + [x], sortBy, k)
    decreases |t|
  {
    if t == [] {
    } else if Key(t[0], sortBy) > Key(x, sortBy) {
      InsertInFrontKeepsTies(t, x, sortBy, k);
    } else {
      var rest := Insert(t[1..], x, sortBy);
      assert Insert(t, x, sortBy) == [t[0]] + rest;
      assert Sorted(t[1..], sortBy) by {
        assert forall i :: 0 <= i < |t[1..]| ==> t[1..][i] == t[i + 1];
      }
      assert [t[0]] + (t[1..] + [x]) == t + [x];
      calc {
        WithKey(Insert(t, x, sortBy), sortBy, k);
        { WithKeyAppend([t[0]], rest, sortBy, k); }
        WithKey([t[0]], sortBy, k) + WithKey(rest, sortBy, k);
        { InsertKeepsTies(t[1..], x, sortBy, k); }
        WithKey([t[0]], sortBy, k) + WithKey(t[1..] + [x], sortBy, k);
        { WithKeyAppend([t[0]], t[1..] + [x], sortBy, k); }
        WithKey(t + [x], sortBy, k);
      }
    }
  }

  /** Stability: for every key, the elements with that key keep their relative order. */
  lemma {:induction false} SortIsStable(s: seq<Doctor>, sortBy: string, k: int)
    ensures WithKey(SortBy(s, sortBy), sortBy, k) == WithKey(s, sortBy, k)
    decreases |s|
  {
    if s != [] {
      var init, last := s[..|s| - 1], s[|s| - 1];
      var sorted := SortBy(init, sortBy);
      assert init + [last] == s;
      assert SortBy(s, sortBy) == Insert(sorted, last, sortBy);
      SortIsStable(init, sortBy, k);
      InsertKeepsTies(sorted, last, sortBy, k);
      WithKeyAppend(sorted, [last], sortBy, k);
      WithKeyAppend(init, [last], sortBy, k);
    }
  }

  /** An unknown sort key leaves the filtered list exactly as it was. */
  lemma UnknownKeyKeepsOrder(s: seq<Doctor>, sortBy: string)
    requires sortBy != "rating" && sortBy != "fee" && sortBy != "experience"
    ensures SortBy(s, sortBy) == s
  {
    var r := SortBy(s, sortBy);
    SortIsStable(s, sortBy, 0);
    WithKeyAll(s, sortBy, 0);
    WithKeyAll(r, sortBy, 0);
  }

  /** What each known key orders by. */
  lemma SortOrders(s: seq<Doctor>, sortBy: string, i: int, j: int)
    requires 0 <= i < j < |SortBy(s, sortBy)|
    ensures var r := SortBy(s, sortBy);
      && (sortBy == "rating" ==> r[i].rating >= r[j].rating)
      && (sortBy == "fee" ==> r[i].fee <= r[j].fee)
      && (sortBy == "experience" ==> r[i].experience >= r[j].experience)
  {
  }

  /** The visible list holds exactly the matching doctors, each as many times as it was
      fetched: nothing is added, dropped or duplicated. */
  lemma VisibleIsMatchingDoctors(doctors: seq<Doctor>, query: string, spec: string, sortBy: string, d: Doctor)
    ensures d in Visible(doctors, query, spec, sortBy) <==> d in doctors && Matches(d, query, spec)
  {
    var f := Filter(doctors, x => Matches(x, query, spec));
    var r := Visible(doctors, query, spec, sortBy);
    assert d in r <==> d in multiset(r);
    assert d in f <==> d in multiset(f);
    if d in doctors && Matches(d, query, spec) {
      var i :| 0 <= i < |doctors| && doctors[i] == d;
    }
    if d in f {
      var i :| 0 <= i < |f| && f[i] == d;
    }
  }

  /** An empty search with the "All" facet keeps every doctor. */
  lemma EmptySearchKeepsAll(doctors: seq<Doctor>)
    ensures Filter(doctors, d => Matches(d, "", AllSpecializations)) == doctors
  {
    forall i | 0 <= i < |doctors|
      ensures Matches(doctors[i], "", AllSpecializations)
    {
      ContainsEmpty(ToLower(doctors[i].specialization));
    }
    FilterKeepsAll(doctors, d => Matches(d, "", AllSpecializations));
  }

  class DoctorSearchPage {
    var doctors: seq<Doctor>
    var isLoading: bool
    var error: Option<string>
    var searchQuery: string
    var selectedSpec: string
    var sortBy: string

    constructor()
      ensures doctors == [] && isLoading && error.None?
      ensures searchQuery == "" && selectedSpec == AllSpecializations && sortBy == "rating"
    {
      doctors := [];
      isLoading := true;
      error := None;
      searchQuery := "";
      selectedSpec := AllSpecializations;
      sortBy := "rating";
    }

    /** The end of `fetchDoctors`: the formatted rows replace the list, or on a failure the
        list is kept and the fixed message shown. Loading ends either way. */
    method FetchDone(result: Result<seq<DoctorRow>, string>)
      modifies this
      ensures result.Ok? ==> doctors == FormatAll(result.value) && error.None?
      ensures result.Err? ==> doctors == old(doctors) && error == Some(FetchFailed)
      ensures !isLoading
      ensures searchQuery == old(searchQuery) && selectedSpec == old(selectedSpec) && sortBy == old(sortBy)
    {
      error := None;
      if result.Ok? {
        doctors := FormatAll(result.value);
      } else {
        error := Some(FetchFailed);
      }
      isLoading := false;
    }

    /** The search box's `onChange`. */
    method Search(query: string)
      modifies this
      ensures searchQuery == query
      ensures selectedSpec == old(selectedSpec) && sortBy == old(sortBy)
      ensures doctors == old(doctors) && isLoading == old(isLoading) && error == old(error)
    {
      searchQuery := query;
    }

    /** A specialization pill. */
    method ChooseSpecialization(spec: string)
      modifies this
      ensures selectedSpec == spec
      ensures searchQuery == old(searchQuery) && sortBy == old(sortBy)
      ensures doctors == old(doctors) && isLoading == old(isLoading) && error == old(error)
    {
      selectedSpec := spec;
    }

    /** The sort select: only the order of the shown doctors changes, never which are shown. */
    method ChooseSort(key: string)
      modifies this
      ensures sortBy == key
      ensures searchQuery == old(searchQuery) && selectedSpec == old(selectedSpec)
      ensures doctors == old(doctors) && isLoading == old(isLoading) && error == old(error)
      ensures multiset(Visible(doctors, searchQuery, selectedSpec, sortBy))
           == multiset(old(Visible(doctors, searchQuery, selectedSpec, sortBy)))
    {
      sortBy := key;
    }

    /** "Reset Filters": the facet back to "All", the query emptied, the sort untouched. */
    method Reset()
      modifies this
      ensures selectedSpec == AllSpecializations && searchQuery == ""
      ensures sortBy == old(sortBy) && doctors == old(doctors)
      ensures isLoading == old(isLoading) && error == old(error)
      ensures multiset(Visible(doctors, searchQuery, selectedSpec, sortBy)) == multiset(doctors)
    {
      selectedSpec := AllSpecializations;
      searchQuery := "";
      EmptySearchKeepsAll(doctors);
    }
  }
}
