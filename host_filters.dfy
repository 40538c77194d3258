/**
 * The scheduler's host filters as the host-filter tests pin them down:
 * CapacityFilter and RetryFilter, each a total predicate over a host and the
 * request's filter properties, and the by-name lookup of the filter classes
 * that the tests build from HostFilterHandler.get_all_classes.
 */
module HostFilters {
  import opened Wrappers

  /** A capacity figure a back end reports: whole gigabytes, or one of two sentinels. */
  datatype Capacity = Numeric(gb: nat) | Infinite | Unknown

  /** The service record of a host; only the administrative switch is kept. */
  datatype Service = Service(disabled: bool)

  /** A candidate host or pool (`host#pool`) as the scheduler sees it. */
  datatype HostState = HostState(
    host: string,
    freeCapacity: Capacity,
    totalCapacity: Option<Capacity>,
    reservedPercentage: Option<int>,
    service: Service)

  /** The retry record: how many attempts were made and which hosts were tried. */
  datatype Retry = Retry(numAttempts: int, hosts: seq<string>)

  /** The request-side context handed to every filter. */
  datatype FilterProperties = FilterProperties(
    size: int,
    shareExistsOn: Option<string>,
    retry: Option<Retry>)

  /** The filter classes of the scheduler's filter namespace that this model covers. */
  datatype Filter = CapacityFilter | RetryFilter

  // ---------------------------------------------------------------------------
  // CapacityFilter
  // ---------------------------------------------------------------------------

  /** The reserved percentage of a host; a host that reports none reserves nothing. */
  function ReservedPercentage(h: HostState): int {
    if h.reservedPercentage.Some? then h.reservedPercentage.value else 0
  }

  /** The gigabytes of `free` left once `reserved` percent of it is set aside, rounded down. */
  function UsableCapacity(free: nat, reserved: int): (u: int)
    ensures 100 * u <= free * (100 - reserved) < 100 * u + 100
  {
    free * (100 - reserved) / 100
  }

  /**
   * CapacityFilter.host_passes. A host whose service is disabled or down is
   * rejected; the sentinels `infinite` and `unknown` always fit; otherwise the
   * usable part of the free capacity must cover the requested size, which is
   * to say that the unreserved share of it, in hundredths, covers the size.
   */
  function CapacityPasses(h: HostState, p: FilterProperties, serviceUp: bool): (r: bool)
    ensures !h.service.disabled && serviceUp ==>
              (r <==> (h.freeCapacity.Numeric? ==>
                         h.freeCapacity.gb * (100 - ReservedPercentage(h)) >= 100 * p.size))
  {
    if h.service.disabled || !serviceUp then false
    else
      match h.freeCapacity
      case Infinite => true
      case Unknown => true
      case Numeric(free) =>
        var u := UsableCapacity(free, ReservedPercentage(h));
        assert u >= p.size <==> free * (100 - ReservedPercentage(h)) >= 100 * p.size;
        u >= p.size
  }

  /** A host without a reserved percentage fits iff its free capacity alone covers the size. */
  lemma UnreservedHostFitsIffFree(h: HostState, p: FilterProperties)
    requires !h.service.disabled && h.freeCapacity.Numeric? && h.reservedPercentage.None?
    ensures CapacityPasses(h, p, true) <==> h.freeCapacity.gb >= p.size
  {
  }

  /** The sentinels fit every request, however large. */
  lemma SentinelsAlwaysFit(h: HostState, p: FilterProperties)
    requires !h.service.disabled
    requires h.freeCapacity == Infinite || h.freeCapacity == Unknown
    ensures CapacityPasses(h, p, true)
  {
  }

  /** Nothing to allocate always fits, as long as the reservation is a true percentage. */
  lemma EmptyRequestFits(h: HostState, p: FilterProperties)
    requires !h.service.disabled && 0 <= ReservedPercentage(h) <= 100 && p.size <= 0
    ensures CapacityPasses(h, p, true)
  {
    if h.freeCapacity.Numeric? {
      MulNonNegative(h.freeCapacity.gb, 100 - ReservedPercentage(h));
    }
  }

  /** A host that fits a request fits every smaller request. */
  lemma FitsSmallerRequest(h: HostState, p: FilterProperties, size: int)
    requires CapacityPasses(h, p, true) && size <= p.size
    ensures CapacityPasses(h, p.(size := size), true)
  {
  }

  /** More free capacity never turns a fitting host away (for a reservation between 0 and 100 percent). */
  lemma MoreFreeStillFits(h: HostState, p: FilterProperties, free: nat)
    requires CapacityPasses(h, p, true) && h.freeCapacity.Numeric?
    requires 0 <= ReservedPercentage(h) <= 100 && free >= h.freeCapacity.gb
    ensures CapacityPasses(h.(freeCapacity := Numeric(free)), p, true)
  {
    var keep := 100 - ReservedPercentage(h);
    MulMonotone(h.freeCapacity.gb, free, keep);
  }

  /** A smaller reservation never turns a fitting host away. */
  lemma SmallerReservationStillFits(h: HostState, p: FilterProperties, reserved: int)
    requires CapacityPasses(h, p, true) && h.freeCapacity.Numeric?
    requires reserved <= ReservedPercentage(h)
    ensures CapacityPasses(h.(reservedPercentage := Some(reserved)), p, true)
  {
    var f := h.freeCapacity.gb;
    MulMonotone(100 - ReservedPercentage(h), 100 - reserved, f);
    assert f * (100 - reserved) == (100 - reserved) * f;
    assert f * (100 - ReservedPercentage(h)) == (100 - ReservedPercentage(h)) * f;
  }

  /** The reservation is taken out of free capacity only: the total capacity never changes the verdict. */
  lemma TotalCapacityIgnored(h: HostState, p: FilterProperties, serviceUp: bool, total: Option<Capacity>)
    ensures CapacityPasses(h.(totalCapacity := total), p, serviceUp) == CapacityPasses(h, p, serviceUp)
  {
  }

  lemma MulNonNegative(a: int, b: int)
    requires a >= 0 && b >= 0
    ensures a * b >= 0
  {
  }

  lemma MulMonotone(a: int, b: int, c: int)
    requires a <= b && c >= 0
    ensures a * c <= b * c
  {
    assert b * c - a * c == (b - a) * c;
    MulNonNegative(b - a, c);
  }

  // ---------------------------------------------------------------------------
  // RetryFilter
  // ---------------------------------------------------------------------------

  /** RetryFilter.host_passes: without a retry record every host passes; otherwise only hosts not yet tried. */
  function RetryPasses(h: HostState, p: FilterProperties): (r: bool)
    ensures r <==> p.retry.None?
                   || forall i :: 0 <= i < |p.retry.value.hosts| ==> p.retry.value.hosts[i] != h.host
  {
    p.retry.None? || h.host !in p.retry.value.hosts
  }

  /**
   * Extending the list of tried hosts only ever excludes more: a host already
   * excluded stays excluded, and every newly recorded host is excluded.
   */
  lemma RetryHistoryOnlyNarrows(h: HostState, p: FilterProperties, tried: seq<string>)
    requires p.retry.Some?
    ensures var p' := p.(retry := Some(p.retry.value.(hosts := p.retry.value.hosts + tried)));
            (RetryPasses(h, p') ==> RetryPasses(h, p))
            && (h.host in tried ==> !RetryPasses(h, p'))
  {
  }

  /** The retry verdict depends on the host's name alone, never on its capacity or service. */
  lemma RetryDependsOnNameOnly(h: HostState, g: HostState, p: FilterProperties)
    requires h.host == g.host
    ensures RetryPasses(h, p) == RetryPasses(g, p)
  {
  }

  // ---------------------------------------------------------------------------
  // Filter lookup
  // ---------------------------------------------------------------------------

  /** The `__name__` of a filter class. */
  function ClassName(f: Filter): string {
    match f
    case CapacityFilter => "CapacityFilter"
    case RetryFilter => "RetryFilter"
  }

  /** HostFilterHandler.get_all_classes for the scheduler's filter namespace, restricted to the modelled classes. */
  function AllClasses(): seq<Filter> {
    [CapacityFilter, RetryFilter]
  }

  /**
   * The class map the tests build: each class stored under its name, a later
   * class of the same name replacing an earlier one.
   */
  function ClassMap(classes: seq<Filter>): (m: map<string, Filter>)
    ensures forall name :: name in m ==> ClassName(m[name]) == name
    ensures forall name :: name in m ==> exists i :: 0 <= i < |classes| && ClassName(classes[i]) == name
  {
    if classes == [] then map[]
    else
      var m := ClassMap(classes[..|classes| - 1]);
      assert forall i :: 0 <= i < |classes| - 1 ==> classes[..|classes| - 1][i] == classes[i];
      m[ClassName(classes[|classes| - 1]) := classes[|classes| - 1]]
  }

  /** Every listed class can be looked up by its name, and the lookup gives that class back. */
  lemma {:induction false} ClassMapResolves(classes: seq<Filter>, f: Filter)
    requires f in classes
    ensures ClassName(f) in ClassMap(classes) && ClassMap(classes)[ClassName(f)] == f
  {
    var last := classes[|classes| - 1];
    if last != f {
      var prefix := classes[..|classes| - 1];
      assert classes == prefix + [last];
      assert f in prefix;
      ClassMapResolves(prefix, f);
      assert ClassName(last) != ClassName(f) by {
        ClassNameInjective(last, f);
      }
    }
  }

  lemma ClassNameInjective(f: Filter, g: Filter)
    ensures ClassName(f) == ClassName(g) ==> f == g
  {
  }

  /** The names the tests look up resolve to the two standard filters. */
  lemma StandardFiltersResolve()
    ensures "CapacityFilter" in ClassMap(AllClasses()) && ClassMap(AllClasses())["CapacityFilter"] == CapacityFilter
    ensures "RetryFilter" in ClassMap(AllClasses()) && ClassMap(AllClasses())["RetryFilter"] == RetryFilter
  {
    ClassMapResolves(AllClasses(), CapacityFilter);
    ClassMapResolves(AllClasses(), RetryFilter);
  }

  /** The filter capability: `host_passes` of a filter class. */
  function HostPasses(f: Filter, h: HostState, p: FilterProperties, serviceUp: bool): bool {
    match f
    case CapacityFilter => CapacityPasses(h, p, serviceUp)
    case RetryFilter => RetryPasses(h, p)
  }

  // ---------------------------------------------------------------------------
  // The cases of the host-filter tests, looked up by name as the tests do
  // ---------------------------------------------------------------------------

  function TestHost(name: string, free: Capacity, reserved: Option<int>): HostState {
    HostState(name, free, None, reserved, Service(false))
  }

  function Request(size: int): FilterProperties {
    FilterProperties(size, None, None)
  }

  function Lookup(name: string): Filter
    requires name in ClassMap(AllClasses())
  {
    ClassMap(AllClasses())[name]
  }

  lemma CapacityFilterPasses()
    ensures "CapacityFilter" in ClassMap(AllClasses())
    ensures HostPasses(Lookup("CapacityFilter"), TestHost("host1", Numeric(200), None), Request(100), true)
  {
    StandardFiltersResolve();
  }

  lemma CapacityFilterCurrentHostPasses()
    ensures "CapacityFilter" in ClassMap(AllClasses())
    ensures HostPasses(Lookup("CapacityFilter"), TestHost("host1#pools1", Numeric(200), None),
                       FilterProperties(100, Some("host1#pool1"), None), true)
  {
    StandardFiltersResolve();
  }

  lemma CapacityFilterFails()
    ensures "CapacityFilter" in ClassMap(AllClasses())
    ensures UsableCapacity(120, 20) == 96
    ensures !HostPasses(Lookup("CapacityFilter"), TestHost("host1", Numeric(120), Some(20)), Request(100), true)
  {
    StandardFiltersResolve();
  }

  lemma CapacityFilterPassesInfinite()
    ensures "CapacityFilter" in ClassMap(AllClasses())
    ensures HostPasses(Lookup("CapacityFilter"), TestHost("host1", Infinite, None), Request(100), true)
  {
    StandardFiltersResolve();
  }

  lemma CapacityFilterPassesUnknown()
    ensures "CapacityFilter" in ClassMap(AllClasses())
    ensures HostPasses(Lookup("CapacityFilter"), TestHost("host1", Unknown, None), Request(100), true)
  {
    StandardFiltersResolve();
  }

  lemma RetryFilterDisabled(serviceUp: bool)
    ensures "RetryFilter" in ClassMap(AllClasses())
    ensures HostPasses(Lookup("RetryFilter"), TestHost("host1", Unknown, None),
                       FilterProperties(0, None, None), serviceUp)
  {
    StandardFiltersResolve();
  }

  lemma RetryFilterPass(serviceUp: bool)
    ensures "RetryFilter" in ClassMap(AllClasses())
    ensures HostPasses(Lookup("RetryFilter"), TestHost("host1", Unknown, None),
                       FilterProperties(0, None, Some(Retry(2, ["host2"]))), serviceUp)
  {
    StandardFiltersResolve();
  }

  lemma RetryFilterFail(serviceUp: bool)
    ensures "RetryFilter" in ClassMap(AllClasses())
    ensures !HostPasses(Lookup("RetryFilter"), TestHost("host1", Unknown, None),
                        FilterProperties(0, None, Some(Retry(1, ["host1"]))), serviceUp)
  {
    StandardFiltersResolve();
  }
}
