/**
 * The historical site-year table loaded from the spreadsheet, the filter that
 * keeps one site's rows, and the list of sites the form offers: the distinct
 * site names in ascending order.
 */
module Dataset {

  /** One historical row: the site it was observed at and the readings the form aggregates. */
  datatype Observation = Observation(
    site: string,
    tmin: real,           // Tmin(ºC)
    tmax: real,           // Tmax(ºC)
    precipitation: real,  // Precipitation(mm)
    radiation: real,      // Radiation(Mj/m2day)
    whc: real,            // WHC(mm)
    carbon: real,         // C(%)
    ph: real,             // pH
    anthesis: real        // AnthesisDate(doy)
  )

  /** The site names that occur in the table. */
  function Sites(rows: seq<Observation>): set<string>
  {
    set o | o in rows :: o.site
  }

  /** The rows observed at `site`, with their repetitions. */
  function SiteRows(rows: seq<Observation>, site: string): (r: seq<Observation>)
    ensures forall o :: o in r <==> o in rows && o.site == site
    ensures |r| <= |rows|
  {
    if rows == [] then []
    else
      assert rows == [rows[0]] + rows[1..];
      (if rows[0].site == site then [rows[0]] else []) + SiteRows(rows[1..], site)
  }

  /** The filter keeps every row of the site as often as it occurs, and no other row. */
  lemma {:induction false} SiteRowsCounts(rows: seq<Observation>, site: string, o: Observation)
    ensures multiset(SiteRows(rows, site))[o] == if o.site == site then multiset(rows)[o] else 0
  {
    if rows != [] {
      SiteRowsCounts(rows[1..], site, o);
      assert rows == [rows[0]] + rows[1..];
    }
  }

  /** A site occurs in the table exactly when its filtered rows are non-empty. */
  lemma SiteRowsNonEmpty(rows: seq<Observation>, site: string)
    ensures |SiteRows(rows, site)| > 0 <==> site in Sites(rows)
  {
    if site in Sites(rows) {
      var o :| o in rows && o.site == site;
      assert o in SiteRows(rows, site);
    }
  }

  /** Filtering distributes over concatenation of tables. */
  lemma {:induction false} SiteRowsAppend(a: seq<Observation>, b: seq<Observation>, site: string)
    ensures SiteRows(a + b, site) == SiteRows(a, site) + SiteRows(b, site)
  {
    if a != [] {
      SiteRowsAppend(a[1..], b, site);
      var head := if a[0].site == site then [a[0]] else [];
      assert (a + b)[0] == a[0] && (a + b)[1..] == a[1..] + b;
      calc {
        SiteRows(a + b, site);
        head + SiteRows(a[1..] + b, site);
        head + (SiteRows(a[1..], site) + SiteRows(b, site));
        (head + SiteRows(a[1..], site)) + SiteRows(b, site);
        SiteRows(a, site) + SiteRows(b, site);
      }
    } else {
      assert a + b == b;
    }
  }

  /** Inserting a row of another site anywhere in the table leaves the site's rows unchanged. */
  lemma InsertOtherSite(rows: seq<Observation>, i: nat, o: Observation, site: string)
    requires i <= |rows| && o.site != site
    ensures SiteRows(rows[..i] + [o] + rows[i..], site) == SiteRows(rows, site)
  {
    var before, after := rows[..i], rows[i..];
    assert rows == before + after;
    assert SiteRows([o], site) == [];
    SiteRowsAppend(before + [o], after, site);
    SiteRowsAppend(before, [o], site);
    SiteRowsAppend(before, after, site);
  }

  /** Replacing a row of another site by a row of another site leaves the site's rows unchanged. */
  lemma ReplaceOtherSite(rows: seq<Observation>, i: nat, o: Observation, site: string)
    requires i < |rows| && rows[i].site != site && o.site != site
    ensures SiteRows(rows[i := o], site) == SiteRows(rows, site)
  {
    var before, after := rows[..i], rows[i + 1..];
    assert rows == before + [rows[i]] + after;
    assert rows[i := o] == before + [o] + after;
    SiteRowsAppend(before + [rows[i]], after, site);
    SiteRowsAppend(before, [rows[i]], site);
    SiteRowsAppend(before + [o], after, site);
    SiteRowsAppend(before, [o], site);
  }

  /**
   * Code-point order on strings, the order Python's sorted() gives to str:
   * compare the first differing character, and a proper prefix comes first.
   */
  predicate Below(a: string, b: string)
  {
    if |a| == 0 then |b| > 0
    else if |b| == 0 then false
    else a[0] < b[0] || (a[0] == b[0] && Below(a[1..], b[1..]))
  }

  lemma {:induction false} BelowIrreflexive(a: string)
    ensures !Below(a, a)
  {
    if |a| > 0 {
      BelowIrreflexive(a[1..]);
    }
  }

  lemma {:induction false} BelowTransitive(a: string, b: string, c: string)
    requires Below(a, b) && Below(b, c)
    ensures Below(a, c)
  {
    if |a| > 0 && |b| > 0 && |c| > 0 && a[0] == b[0] == c[0] {
      BelowTransitive(a[1..], b[1..], c[1..]);
    }
  }

  lemma {:induction false} BelowTotal(a: string, b: string)
    requires a != b
    ensures Below(a, b) || Below(b, a)
  {
    if |a| > 0 && |b| > 0 && a[0] == b[0] {
      assert a == [a[0]] + a[1..] && b == [b[0]] + b[1..];
      BelowTotal(a[1..], b[1..]);
    }
  }

  /** Strictly ascending in code-point order, hence free of duplicates. */
  predicate StrictlySorted(s: seq<string>)
  {
    forall i, j :: 0 <= i < j < |s| ==> Below(s[i], s[j])
  }

  /** Adds `x` to a strictly sorted list, keeping it strictly sorted and adding nothing else. */
  function Insert(sorted: seq<string>, x: string): (r: seq<string>)
    requires StrictlySorted(sorted)
    ensures StrictlySorted(r)
    ensures forall s :: s in r <==> s in sorted || s == x
  {
    if sorted == [] then [x]
    else if x == sorted[0] then sorted
    else if Below(x, sorted[0]) then
      assert forall j :: 0 < j < |sorted| ==> Below(x, sorted[j]) by {
        forall j | 0 < j < |sorted| {
          BelowTransitive(x, sorted[0], sorted[j]);
        }
      }
      [x] + sorted
    else
      var rest := Insert(sorted[1..], x);
      BelowTotal(x, sorted[0]);
      assert forall s :: s in rest ==> Below(sorted[0], s);
      [sorted[0]] + rest
  }

  /** The site list of the form: the distinct site names of the table, ascending. */
  function SiteOptions(rows: seq<Observation>): (opts: seq<string>)
    ensures StrictlySorted(opts)
    ensures forall s :: s in opts <==> s in Sites(rows)
  {
    if rows == [] then []
    else
      var last := |rows| - 1;
      assert rows == rows[..last] + [rows[last]];
      Insert(SiteOptions(rows[..last]), rows[last].site)
  }

  /** The offered site list names every site once. */
  lemma SiteOptionsDistinct(rows: seq<Observation>)
    ensures forall i, j :: 0 <= i < j < |SiteOptions(rows)| ==> SiteOptions(rows)[i] != SiteOptions(rows)[j]
  {
    var opts := SiteOptions(rows);
    forall i, j | 0 <= i < j < |opts|
      ensures opts[i] != opts[j]
    {
      BelowIrreflexive(opts[i]);
    }
  }

  /** A site picked from the offered list always has at least one row. */
  lemma ChosenSiteHasRows(rows: seq<Observation>, site: string)
    requires site in SiteOptions(rows)
    ensures |SiteRows(rows, site)| > 0
  {
    SiteRowsNonEmpty(rows, site);
  }
}
