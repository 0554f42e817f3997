/** What the two catalogue builders and the single-package queries of
    `AppUtils` guarantee, stated over the package registry. */
module CatalogProperties {
  import opened Android
  import opened Text
  import opened Sorting
  import opened Model
  import opened AppUtils

  // ---------------------------------------------------------------------------
  // The name order on records

  lemma EntryByNamePreorder(s: seq<Entry>)
    ensures Preorder(s, EntryByName)
  {
    forall x, y | x in s && y in s ensures EntryByName(x, y) || EntryByName(y, x) {
      LexLeqTotal(x.fields.appName, y.fields.appName);
    }
    forall x, y, z | x in s && y in s && z in s && EntryByName(x, y) && EntryByName(y, z)
      ensures EntryByName(x, z)
    {
      LexLeqTransitive(x.fields.appName, y.fields.appName, z.fields.appName);
    }
  }

  /** Two records are tied in the name order exactly when their names are equal. */
  lemma EntryByNameTies(x: Entry, y: Entry)
    ensures EntryByName(x, y) && EntryByName(y, x) <==> x.fields.appName == y.fields.appName
  {
    if EntryByName(x, y) && EntryByName(y, x) {
      LexLeqAntisymmetric(x.fields.appName, y.fields.appName);
    }
    if x.fields.appName == y.fields.appName {
      LexLeqReflexive(x.fields.appName);
    }
  }

  // ---------------------------------------------------------------------------
  // Where records come from

  /** A record is in the list exactly when some package produces it. */
  lemma {:induction false} CollectFrom(admit: PackageInfo -> Option<Entry>, ps: seq<PackageInfo>, e: Entry)
    ensures e in Collect(admit, ps) <==> exists i | 0 <= i < |ps| :: admit(ps[i]) == Some(e)
  {
    if ps != [] {
      var init := ps[..|ps| - 1];
      CollectFrom(admit, init, e);
      if e in Collect(admit, ps) && e !in Collect(admit, init) {
        assert admit(ps[|ps| - 1]) == Some(e);
      }
      if exists i | 0 <= i < |ps| :: admit(ps[i]) == Some(e) {
        var i :| 0 <= i < |ps| && admit(ps[i]) == Some(e);
        if i < |ps| - 1 {
          assert init[i] == ps[i];
        }
      }
    }
  }

  /** Every record in a catalogue: the package manager answered, some installed
      package produced it, its package is installed, its name is neither blank
      nor "null", a system record passed the deny-list, and the user-only
      catalogue holds no system record. */
  lemma CatalogRecords(b: Builder, pm: PackageManager, e: Entry)
    requires e in Catalog(b, pm)
    ensures pm.available
    ensures exists i | 0 <= i < |pm.packages| :: Admit(b, pm.packages[i]) == Some(e)
    ensures IsAppInstalled(pm, e.fields.packageName)
    ensures ValidName(e.fields.appName)
    ensures e.fields.isSystemApp ==> !IsProblematicSystemApp(e.fields.packageName)
    ensures b == UserAppsOnly ==> !e.fields.isSystemApp
  {
    assert e in multiset(Catalog(b, pm));
    assert e in Admitted(b, pm.packages);
    CollectFrom(Admission(b), pm.packages, e);
    var i :| 0 <= i < |pm.packages| && Admit(b, pm.packages[i]) == Some(e);
    AdmitKeeps(b, pm.packages[i]);
    assert pm.packages[i] in pm.packages;
  }


  // ---------------------------------------------------------------------------
  // Order

  /** A catalogue is in name order, holds the admitted records with their
      multiplicities, and records with the same name keep the order of the
      registry (the sort is stable). */
  lemma CatalogOrder(b: Builder, pm: PackageManager, e: Entry)
    requires pm.available
    ensures Sorted(Catalog(b, pm), EntryByName)
    ensures multiset(Catalog(b, pm)) == multiset(Admitted(b, pm.packages))
    ensures Peers(Catalog(b, pm), e, EntryByName) == Peers(Admitted(b, pm.packages), e, EntryByName)
  {
    var admitted := Admitted(b, pm.packages);
    EntryByNamePreorder(admitted);
    SortBySorted(admitted, EntryByName);
    EntryByNamePreorder(admitted + [e]);
    SortByStable(admitted, e, EntryByName);
  }

  // ---------------------------------------------------------------------------
  // Which packages are kept

  /** An installed package without a launch intent has no record in either
      catalogue. */
  lemma NoLaunchIntentNoRecord(b: Builder, pm: PackageManager, i: nat)
    requires DistinctNames(pm.packages)
    requires i < |pm.packages| && pm.packages[i].launchIntent != HasLaunchIntent
    ensures forall e | e in Catalog(b, pm) :: e.fields.packageName != pm.packages[i].packageName
  {
    forall e | e in Catalog(b, pm) ensures e.fields.packageName != pm.packages[i].packageName {
      CatalogRecords(b, pm, e);
      var j :| 0 <= j < |pm.packages| && Admit(b, pm.packages[j]) == Some(e);
      AdmitKeeps(b, pm.packages[j]);
    }
  }

  /** For a launchable package with application info and a usable name, the deny
      list decides only for system packages: `getInstalledApps` drops it exactly
      when it is a system package on the deny-list, and
      `getInstalledAppsExcludingSystem` drops it exactly when it is a system
      package. */
  lemma DenyListOnlyForSystem(p: PackageInfo)
    requires p.launchIntent == HasLaunchIntent && p.applicationInfo.Some?
    requires ValidName(AppNameOf(p.packageName, p.applicationInfo.value.loadLabel))
    ensures AdmitAny(p).None? <==> IsSystem(p.applicationInfo.value.flags) && IsProblematicSystemApp(p.packageName)
    ensures AdmitUser(p).None? <==> IsSystem(p.applicationInfo.value.flags)
  {
  }

  /** What a kept record holds, field by field, including the fallbacks for a
      label, an icon or a version that could not be read. */
  lemma RecordFields(b: Builder, p: PackageInfo)
    requires Admit(b, p).Some?
    ensures p.applicationInfo.Some?
    ensures var e := Admit(b, p).value;
      && (p.applicationInfo.value.loadLabel.Loaded? && p.applicationInfo.value.loadLabel.value.Some? ==>
            e.fields.appName == p.applicationInfo.value.loadLabel.value.value)
      && (p.applicationInfo.value.loadLabel.Threw? || p.applicationInfo.value.loadLabel == Loaded(None) ==>
            e.fields.appName == p.packageName)
      && (p.applicationInfo.value.loadIcon.Loaded? ==> e.icon == p.applicationInfo.value.loadIcon.value)
      && (p.applicationInfo.value.loadIcon.Threw? ==> e.icon == None)
      && (p.versionName.Loaded? && p.versionName.value.Some? ==> e.fields.versionName == p.versionName.value.value)
      && (p.versionName.Threw? || p.versionName == Loaded(None) ==> e.fields.versionName == "")
      && (p.longVersionCode.Loaded? ==> e.fields.versionCode == p.longVersionCode.value)
      && (p.longVersionCode.Threw? ==> e.fields.versionCode == 0)
      && e.fields.installTime == p.firstInstallTime
      && e.fields.updateTime == p.lastUpdateTime
      && e.fields.category == GetAppCategory(p.packageName)
      && !e.fields.isFavorite
  {
    AdmitKeeps(b, p);
  }

  /** A launchable package whose label cannot be loaded is still listed, under
      its package name, when that name is usable. */
  lemma LabelFailureKeepsRecord(p: PackageInfo)
    requires p.launchIntent == HasLaunchIntent && p.applicationInfo.Some?
    requires p.applicationInfo.value.loadLabel.Threw?
    requires !IsSystem(p.applicationInfo.value.flags) || !IsProblematicSystemApp(p.packageName)
    requires ValidName(p.packageName)
    ensures AdmitAny(p).Some? && AdmitAny(p).value.fields.appName == p.packageName
  {
  }

  // ---------------------------------------------------------------------------
  // The two builders agree

  /** Not a system app. */
  predicate IsUserEntry(e: Entry)
  {
    !e.fields.isSystemApp
  }

  lemma AdmitUserFiltersAdmitAny(p: PackageInfo)
    ensures Appended(AdmitUser(p)) == Filter(Appended(AdmitAny(p)), IsUserEntry)
  {
  }

  /** When each package's records under `g` are those under `f` that pass `q`,
      the whole list under `g` is the list under `f` filtered by `q`. */
  lemma {:induction false} CollectFilter(f: PackageInfo -> Option<Entry>, g: PackageInfo -> Option<Entry>,
                                         q: Entry -> bool, ps: seq<PackageInfo>)
    requires forall p | p in ps :: Appended(g(p)) == Filter(Appended(f(p)), q)
    ensures Collect(g, ps) == Filter(Collect(f, ps), q)
  {
    if ps != [] {
      var init := ps[..|ps| - 1];
      var last := ps[|ps| - 1];
      assert forall p | p in init :: p in ps;
      CollectFilter(f, g, q, init);
      FilterAppend(Collect(f, init), Appended(f(last)), q);
    }
  }

  /** `getInstalledAppsExcludingSystem` answers `getInstalledApps`' list with
      the system apps taken out, in the same order. */
  lemma UserCatalogIsFilteredCatalog(pm: PackageManager)
    ensures Catalog(UserAppsOnly, pm) == Filter(Catalog(AllApps, pm), IsUserEntry)
  {
    if pm.available {
      var all := Admitted(AllApps, pm.packages);
      forall p | p in pm.packages ensures Appended(AdmitUser(p)) == Filter(Appended(AdmitAny(p)), IsUserEntry) {
        AdmitUserFiltersAdmitAny(p);
      }
      CollectFilter(AdmitAny, AdmitUser, IsUserEntry, pm.packages);
      EntryByNamePreorder(all);
      FilterSortBy(all, EntryByName, IsUserEntry);
    }
  }

  // ---------------------------------------------------------------------------
  // Packages are handled one at a time

  lemma {:induction false} CollectAppend(admit: PackageInfo -> Option<Entry>, xs: seq<PackageInfo>, ys: seq<PackageInfo>)
    ensures Collect(admit, xs + ys) == Collect(admit, xs) + Collect(admit, ys)
  {
    if ys == [] {
      assert xs + ys == xs;
    } else {
      var init, last := ys[..|ys| - 1], ys[|ys| - 1];
      var zs := xs + ys;
      CollectAppend(admit, xs, init);
      assert zs[..|zs| - 1] == xs + init;
      assert zs[|zs| - 1] == last;
      var tail := Appended(admit(last));
      assert Collect(admit, zs) == Collect(admit, xs + init) + tail;
      assert Collect(admit, ys) == Collect(admit, init) + tail;
      assert Collect(admit, xs + init) + tail == Collect(admit, xs) + (Collect(admit, init) + tail);
    }
  }

  lemma CollectSnocNone(admit: PackageInfo -> Option<Entry>, xs: seq<PackageInfo>, x: PackageInfo)
    requires admit(x).None?
    ensures Collect(admit, xs + [x]) == Collect(admit, xs)
  {
    var front := xs + [x];
    assert front[..|front| - 1] == xs;
    assert front[|front| - 1] == x;
  }

  /** A package that produces no record can be dropped from the list. */
  lemma CollectDrop(admit: PackageInfo -> Option<Entry>, xs: seq<PackageInfo>, x: PackageInfo, ys: seq<PackageInfo>)
    requires admit(x).None?
    ensures Collect(admit, xs + [x] + ys) == Collect(admit, xs + ys)
  {
    CollectAppend(admit, xs + [x], ys);
    CollectSnocNone(admit, xs, x);
    CollectAppend(admit, xs, ys);
  }

  /** A package that a builder skips, whatever the reason (no launch intent, a
      failed lookup, a rejected name, an exception), could as well not be
      installed: the catalogue is the same without it. */
  lemma SkippedPackageChangesNothing(b: Builder, pm: PackageManager, i: nat)
    requires i < |pm.packages| && Admit(b, pm.packages[i]).None?
    ensures Catalog(b, pm) == Catalog(b, pm.(packages := pm.packages[..i] + pm.packages[i + 1..]))
  {
    var ps := pm.packages;
    assert ps == ps[..i] + [ps[i]] + ps[i + 1..];
    CollectDrop(Admission(b), ps[..i], ps[i], ps[i + 1..]);
  }

  // ---------------------------------------------------------------------------
  // Package names identify records

  function PackageNameOf(e: Entry): string
  {
    e.fields.packageName
  }

  /** When every record carries the name of the package that produced it,
      distinct package names give distinct record keys. */
  lemma {:induction false} CollectKeysUnique(admit: PackageInfo -> Option<Entry>, ps: seq<PackageInfo>)
    requires DistinctNames(ps)
    requires forall p | p in ps && admit(p).Some? :: admit(p).value.fields.packageName == p.packageName
    ensures UniqueBy(Collect(admit, ps), PackageNameOf)
  {
    if ps != [] {
      var init := ps[..|ps| - 1];
      var last := ps[|ps| - 1];
      assert DistinctNames(init) by {
        forall i, j | 0 <= i < |init| && 0 <= j < |init| && init[i].packageName == init[j].packageName
          ensures i == j
        {
          assert init[i] == ps[i] && init[j] == ps[j];
        }
      }
      assert forall p | p in init :: p in ps;
      CollectKeysUnique(admit, init);
      if admit(last).Some? {
        forall y | y in Collect(admit, init) ensures PackageNameOf(y) != PackageNameOf(admit(last).value) {
          CollectFrom(admit, init, y);
          var i :| 0 <= i < |init| && admit(init[i]) == Some(y);
          assert init[i] == ps[i] && init[i] in ps;
        }
        UniqueBySnoc(Collect(admit, init), admit(last).value, PackageNameOf);
      }
    }
  }

  /** No two records of a catalogue share a package name. */
  lemma CatalogKeysUnique(b: Builder, pm: PackageManager)
    requires DistinctNames(pm.packages)
    ensures UniqueBy(Catalog(b, pm), PackageNameOf)
  {
    if pm.available {
      forall p | p in pm.packages && Admission(b)(p).Some?
        ensures Admission(b)(p).value.fields.packageName == p.packageName
      {
        AdmitKeeps(b, p);
      }
      CollectKeysUnique(Admission(b), pm.packages);
      SortByUniqueBy(Admitted(b, pm.packages), EntryByName, PackageNameOf);
    }
  }

  // ---------------------------------------------------------------------------
  // Single-package queries



  /** For a package that `getInstalledApps` lists and whose version fields can be
      read, `getAppInfo` answers the very record the catalogue holds. */
  lemma AppInfoAgreesWithCatalog(pm: PackageManager, i: nat)
    requires pm.available && DistinctNames(pm.packages) && i < |pm.packages|
    requires AdmitAny(pm.packages[i]).Some?
    requires pm.packages[i].versionName.Loaded? && pm.packages[i].longVersionCode.Loaded?
    ensures AppInfoFor(pm, pm.packages[i].packageName) == AdmitAny(pm.packages[i])
  {
    var p := pm.packages[i];
    var q := FindPackage(pm.packages, p.packageName).value;
    var j :| 0 <= j < |pm.packages| && pm.packages[j] == q;
    assert q == p;
  }

  /** `getAppInfo` applies none of the builders' filters: it answers for an
      installed package without a launch intent, which no catalogue lists. */
  lemma AppInfoIgnoresLaunchIntent(pm: PackageManager, i: nat)
    requires pm.available && DistinctNames(pm.packages) && i < |pm.packages|
    requires pm.packages[i].launchIntent == NoLaunchIntent
    requires pm.packages[i].applicationInfo.Some?
    requires pm.packages[i].versionName.Loaded? && pm.packages[i].longVersionCode.Loaded?
    ensures AppInfoFor(pm, pm.packages[i].packageName).Some?
    ensures forall e | e in Catalog(AllApps, pm) :: e.fields.packageName != pm.packages[i].packageName
  {
    var p := pm.packages[i];
    var q := FindPackage(pm.packages, p.packageName).value;
    var j :| 0 <= j < |pm.packages| && pm.packages[j] == q;
    assert q == p;
    NoLaunchIntentNoRecord(AllApps, pm, i);
  }
}
