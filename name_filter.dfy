/**
  Name-based selection of claims: the prefix and suffix predicates, the
  stable claim filter they are passed to, and the conditional
  prefix-then-suffix filtering of the listed claims.
 */
module NameFilter {
  import opened Kube
  import opened Filtering

  /** Byte-for-byte prefix test, as the Go standard library's strings.HasPrefix. */
  predicate HasPrefix(s: string, prefix: string) {
    |prefix| <= |s| && s[..|prefix|] == prefix
  }

  /** Byte-for-byte suffix test, as the Go standard library's strings.HasSuffix. */
  predicate HasSuffix(s: string, suffix: string) {
    |suffix| <= |s| && s[|s| - |suffix|..] == suffix
  }

  /** The closure that accepts the names starting with `prefix`. */
  function PrefixFilter(prefix: string): string -> bool {
    field => HasPrefix(field, prefix)
  }

  /** The closure that accepts the names ending with `sufix`. */
  function SuffixFilter(sufix: string): string -> bool {
    field => HasSuffix(field, sufix)
  }

  /** A name predicate lifted to claims. */
  function NameIs(f: string -> bool): Claim -> bool {
    (c: Claim) => f(c.name)
  }

  lemma PrefixFilterMatches(prefix: string, field: string)
    ensures PrefixFilter(prefix)(field) <==> exists rest :: field == prefix + rest
  {
    if PrefixFilter(prefix)(field) {
      assert field == prefix + field[|prefix|..];
    }
    if exists rest :: field == prefix + rest {
      var rest :| field == prefix + rest;
      assert field[..|prefix|] == prefix;
    }
  }

  lemma SuffixFilterMatches(sufix: string, field: string)
    ensures SuffixFilter(sufix)(field) <==> exists rest :: field == rest + sufix
  {
    if SuffixFilter(sufix)(field) {
      assert field == field[..|field| - |sufix|] + sufix;
    }
    if exists rest :: field == rest + sufix {
      var rest :| field == rest + sufix;
      assert field[|rest|..] == sufix;
    }
  }

  /** The empty prefix and the empty suffix accept every name. */
  lemma EmptyFiltersAcceptAll(field: string)
    ensures PrefixFilter("")(field) && SuffixFilter("")(field)
  {
  }

  /**
    The stable claim filter: appends, in order, every claim whose name `f`
    accepts to an initially empty list.
   */
  method FilterClaims(list: seq<Claim>, f: string -> bool) returns (newList: seq<Claim>)
    ensures newList == Filter(list, NameIs(f))
    ensures forall c :: c in newList <==> c in list && f(c.name)
    ensures IsSubsequence(newList, list)
  {
    newList := [];
    for i := 0 to |list|
      invariant newList == Filter(list[..i], NameIs(f))
    {
      assert list[..i + 1][..i] == list[..i];
      if f(list[i].name) {
        newList := newList + [list[i]];
      }
    }
    assert list[..|list|] == list;
    forall c ensures c in newList <==> c in list && f(c.name) {
      FilterMembers(list, NameIs(f), c);
    }
    FilterIsSubsequence(list, NameIs(f));
  }

  /** A name passes the configured filters: it satisfies every non-empty filter field. */
  predicate Admitted(conf: Conf, name: string) {
    && (conf.prefixFilter != "" ==> HasPrefix(name, conf.prefixFilter))
    && (conf.sufixFilter != "" ==> HasSuffix(name, conf.sufixFilter))
  }

  function Admission(conf: Conf): Claim -> bool {
    (c: Claim) => Admitted(conf, c.name)
  }

  /** The claims left after the conditional prefix filter and then the conditional suffix filter. */
  function Survivors(items: seq<Claim>, conf: Conf): seq<Claim> {
    var afterPrefix :=
      if conf.prefixFilter != "" then Filter(items, NameIs(PrefixFilter(conf.prefixFilter))) else items;
    if conf.sufixFilter != "" then Filter(afterPrefix, NameIs(SuffixFilter(conf.sufixFilter))) else afterPrefix
  }

  /**
    Prefix-then-suffix filtering is one stable filter by the conjunction of
    the active name predicates; skipping an empty field changes nothing.
   */
  lemma SurvivorsAreAdmitted(items: seq<Claim>, conf: Conf)
    ensures Survivors(items, conf) == Filter(items, Admission(conf))
  {
    var p := NameIs(PrefixFilter(conf.prefixFilter));
    var s := NameIs(SuffixFilter(conf.sufixFilter));
    forall field: string {
      EmptyFiltersAcceptAll(field);
    }
    FilterFilter(items, p, s);
    FilterCongruent(items, Both(p, s), Admission(conf));
    if conf.prefixFilter == "" {
      FilterKeepsAll(items, p);
    }
    if conf.sufixFilter == "" {
      FilterKeepsAll(Filter(items, p), s);
    }
  }

  /**
    The filtering step of a run: the prefix filter only when a prefix is
    configured, then the suffix filter only when a suffix is configured.
   */
  method ApplyNameFilters(items: seq<Claim>, conf: Conf) returns (filtered: seq<Claim>)
    ensures filtered == Filter(items, Admission(conf))
    ensures forall c :: c in filtered <==> c in items && Admitted(conf, c.name)
    ensures IsSubsequence(filtered, items)
  {
    filtered := items;
    if conf.prefixFilter != "" {
      filtered := FilterClaims(filtered, PrefixFilter(conf.prefixFilter));
    }
    if conf.sufixFilter != "" {
      filtered := FilterClaims(filtered, SuffixFilter(conf.sufixFilter));
    }
    assert filtered == Survivors(items, conf);
    SurvivorsAreAdmitted(items, conf);
    forall c ensures c in filtered <==> c in items && Admitted(conf, c.name) {
      FilterMembers(items, Admission(conf), c);
    }
    FilterIsSubsequence(items, Admission(conf));
  }
}
