/**
 * The Umrah package handler: `GET` narrows the package list by status and
 * package type, keeping its order; `POST` stamps a body and stores nothing.
 */
module UmrahPackages {
  import opened Http
  import opened Json
  import opened Seqs

  datatype PackageAirline = PackageAirline(name: string, code: string, logoUrl: string)

  datatype Package = Package(
    id: string,
    packageName: string,
    packageType: string,
    durationDays: int,
    makkahHotel: string,
    madinahHotel: string,
    makkahNights: int,
    madinahNights: int,
    departureDate: nat,
    returnDate: nat,
    totalSeats: int,
    availableSeats: int,
    packagePrice: int,
    status: string,
    airline: PackageAirline)

  /** The `status` and `type` query parameters. */
  datatype PackageQuery = PackageQuery(status: Option<string>, packageType: Option<string>)

  /** The package passes the filters the query turns on; `"all"` turns a filter off. */
  predicate Matches(p: Package, q: PackageQuery)
  {
    && (Selects(q.status) ==> p.status == q.status.value)
    && (Selects(q.packageType) ==> p.packageType == q.packageType.value)
  }

  function StatusTest(status: string): Package -> bool
  {
    (p: Package) => p.status == status
  }

  function TypeTest(packageType: string): Package -> bool
  {
    (p: Package) => p.packageType == packageType
  }

  function StatusAndTypeTest(status: string, packageType: string): Package -> bool
  {
    (p: Package) => p.status == status && p.packageType == packageType
  }

  /**
   * The list `GET` answers with: the two optional filters, in the handler's
   * order. It holds exactly the matching packages, each as often as stored.
   */
  function Search(packages: seq<Package>, q: PackageQuery): (r: seq<Package>)
    ensures multiset(r) <= multiset(packages)
    ensures forall p <- r :: Matches(p, q)
    ensures forall p <- packages :: Matches(p, q) ==> multiset(r)[p] == multiset(packages)[p]
  {
    FilterIfTwice(packages, Selects(q.status), StatusTest(q.status.GetOr("")),
      Selects(q.packageType), TypeTest(q.packageType.GetOr("")));
    var byStatus := FilterIf(packages, Selects(q.status), StatusTest(q.status.GetOr("")));
    FilterIf(byStatus, Selects(q.packageType), TypeTest(q.packageType.GetOr("")))
  }

  /** `GET` keeps the stored order: its answer is the package list with some packages left out. */
  lemma SearchKeepsOrder(packages: seq<Package>, q: PackageQuery)
    ensures Subsequence(Search(packages, q), packages)
  {
    var status := q.status.GetOr("");
    var packageType := q.packageType.GetOr("");
    if Selects(q.status) && Selects(q.packageType) {
      FilterFilter(packages, StatusTest(status), TypeTest(packageType), StatusAndTypeTest(status, packageType));
      FilterIsSubsequence(packages, StatusAndTypeTest(status, packageType));
    } else if Selects(q.status) {
      FilterIsSubsequence(packages, StatusTest(status));
    } else if Selects(q.packageType) {
      FilterIsSubsequence(packages, TypeTest(packageType));
    } else {
      SubsequenceReflexive(packages);
    }
  }

  /** With both parameters absent, empty or `"all"`, `GET` answers the list as stored. */
  lemma UnfilteredSearchIsIdentity(packages: seq<Package>, q: PackageQuery)
    requires !Selects(q.status) && !Selects(q.packageType)
    ensures Search(packages, q) == packages
  {
  }

  /** `POST`: `{ id: "pkg-<now>", ...body, created_at: now }`, answered and stored nowhere. */
  function Post(body: Object, now: nat): (r: Response<Object>)
    ensures r.Ok? && r.status == 200
    ensures r.body == Stamped("pkg-", body, now)
  {
    Ok(200, Stamped("pkg-", body, now))
  }
}
