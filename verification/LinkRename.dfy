/** Giving the guest's network links the names their peers have on the host. A name that is in use by
    another link is first taken from it by renaming that link to a temporary name.
 */
module LinkRename {
  import opened Wrappers

  const TMP := "-tmp"

  predicate Distinct(s: seq<string>) {
    forall i, j :: 0 <= i < j < |s| ==> s[i] != s[j]
  }

  datatype Interface = Interface(mac: string, name: string)

  /** The links of the guest, by index. The kernel keeps names distinct and accepts only some. */
  class Links {
    const macs: seq<string>
    const accepts: string -> bool
    var names: seq<string>

    ghost predicate Valid()
      reads this
    {
      |macs| == |names| && Distinct(macs) && Distinct(names)
    }

    constructor (m: seq<string>, n: seq<string>, a: string -> bool)
      requires |m| == |n| && Distinct(m) && Distinct(n)
      ensures Valid() && macs == m && names == n && accepts == a
    {
      macs, names, accepts := m, n, a;
    }

    method FindByMac(mac: string) returns (r: Option<nat>)
      requires Valid()
      ensures r.Some? ==> r.value < |macs| && macs[r.value] == mac
      ensures r.None? ==> mac !in macs
    {
      for i := 0 to |macs|
        invariant mac !in macs[..i]
      {
        if macs[i] == mac { return Some(i); }
      }
      return None;
    }

    method FindByName(name: string) returns (r: Option<nat>)
      requires Valid()
      ensures r.Some? ==> r.value < |names| && names[r.value] == name
      ensures r.None? ==> name !in names
    {
      for i := 0 to |names|
        invariant name !in names[..i]
      {
        if names[i] == name { return Some(i); }
      }
      return None;
    }

    /** Renaming succeeds if the name does not change or is acceptable and free. */
    method Rename(i: nat, name: string) returns (ok: bool)
      requires Valid() && i < |names|
      modifies this
      ensures Valid()
      ensures ok <==> old(names)[i] == name || (accepts(name) && name !in old(names))
      ensures names == if ok then old(names)[i := name] else old(names)
    {
      ok := names[i] == name || (accepts(name) && name !in names);
      if ok { names := names[i := name]; }
    }
  }

  // ---- What any request does ----

  /** The name of a link once the first `k` interfaces are done: its own interface gives it the name
      asked for, and an interface that asks for the name it has moves it aside. */
  function Track(name: string, mac: string, intfs: seq<Interface>, k: nat): string
    requires k <= |intfs|
  {
    if k == 0 then name
    else
      var current, next := Track(name, mac, intfs, k - 1), intfs[k - 1];
      if next.mac == mac then next.name else if current == next.name then current + TMP else current
  }

  predicate Tracked(macs: seq<string>, orig: seq<string>, intfs: seq<Interface>, k: nat, names: seq<string>)
    requires |macs| == |orig| && k <= |intfs|
  {
    |names| == |macs| && forall i :: 0 <= i < |macs| ==> names[i] == Track(orig[i], macs[i], intfs, k)
  }

  /** When one link can be given a name, whoever has it now. */
  predicate Settable(names: seq<string>, accepts: string -> bool, own: nat, name: string)
    requires own < |names|
  {
    || names[own] == name
    || (accepts(name) && (name in names ==> accepts(name + TMP) && name + TMP !in names))
  }

  /** The names once one link has been given a name. */
  predicate Given(names: seq<string>, own: nat, name: string, after: seq<string>)
    requires own < |names|
  {
    && |after| == |names| && after[own] == name
    && forall j :: 0 <= j < |names| && j != own ==> after[j] == if names[j] == name then names[j] + TMP else names[j]
  }

  /** The k-th interface finds its link, and the link can be given the name at that point. */
  predicate Feasible(macs: seq<string>, orig: seq<string>, accepts: string -> bool, intfs: seq<Interface>, k: nat)
    requires |macs| == |orig| && k < |intfs|
  {
    exists own :: 0 <= own < |macs| && macs[own] == intfs[k].mac && SettableAt(macs, orig, accepts, intfs, k, own)
  }

  predicate SettableAt(macs: seq<string>, orig: seq<string>, accepts: string -> bool, intfs: seq<Interface>, k: nat, own: nat)
    requires |macs| == |orig| && k < |intfs| && own < |macs|
  {
    Settable(NamesAfter(macs, orig, intfs, k), accepts, own, intfs[k].name)
  }

  function NamesAfter(macs: seq<string>, orig: seq<string>, intfs: seq<Interface>, k: nat): (names: seq<string>)
    requires |macs| == |orig| && k <= |intfs|
    ensures Tracked(macs, orig, intfs, k, names)
  {
    if macs == [] then [] else [Track(orig[0], macs[0], intfs, k)] + NamesAfter(macs[1..], orig[1..], intfs, k)
  }

  lemma {:induction false} TrackedIs(macs: seq<string>, orig: seq<string>, intfs: seq<Interface>, k: nat, names: seq<string>)
    requires |macs| == |orig| && k <= |intfs| && Tracked(macs, orig, intfs, k, names)
    ensures names == NamesAfter(macs, orig, intfs, k)
  {}

  lemma {:induction false} OneInterface(macs: seq<string>, orig: seq<string>, intfs: seq<Interface>, k: nat,
                                        names: seq<string>, own: nat, after: seq<string>)
    requires |macs| == |orig| && Distinct(macs) && k < |intfs| && Tracked(macs, orig, intfs, k, names)
    requires own < |macs| && macs[own] == intfs[k].mac && Given(names, own, intfs[k].name, after)
    ensures Tracked(macs, orig, intfs, k + 1, after)
  {
    forall j | 0 <= j < |macs| ensures after[j] == Track(orig[j], macs[j], intfs, k + 1) {
      assert j != own ==> macs[j] != macs[own];
    }
  }

  lemma {:induction false} FeasibleHere(macs: seq<string>, orig: seq<string>, accepts: string -> bool, intfs: seq<Interface>, k: nat,
                                        names: seq<string>, own: nat)
    requires |macs| == |orig| && Distinct(macs) && k < |intfs| && Tracked(macs, orig, intfs, k, names)
    requires own < |macs| && macs[own] == intfs[k].mac
    ensures Feasible(macs, orig, accepts, intfs, k) <==> Settable(names, accepts, own, intfs[k].name)
  {
    TrackedIs(macs, orig, intfs, k, names);
    assert SettableAt(macs, orig, accepts, intfs, k, own) == Settable(names, accepts, own, intfs[k].name);
  }

  predicate All(b: seq<bool>, k: nat)
    requires k <= |b|
  {
    forall q :: 0 <= q < k ==> b[q]
  }

  predicate AllFeasible(macs: seq<string>, orig: seq<string>, accepts: string -> bool, intfs: seq<Interface>, k: nat)
    requires |macs| == |orig| && k <= |intfs|
  {
    forall q :: 0 <= q < k ==> Feasible(macs, orig, accepts, intfs, q)
  }

  /** The renaming part of `update_interfaces`, for any request whatever. `addressed[k]` says whether
      the steps before the k-th rename (taking the link down and setting its addresses) work. Names
      stay distinct after every rename. The loop succeeds if and only if every interface is feasible
      after the ones before it, and then every link has the name that its own interface and the
      interfaces asking for its name have given it. */
  method UpdateInterfaces(links: Links, intfs: seq<Interface>, addressed: seq<bool>) returns (ok: bool)
    requires links.Valid() && |addressed| == |intfs|
    modifies links
    ensures links.Valid()
    ensures ok <==> AllFeasible(links.macs, old(links.names), links.accepts, intfs, |intfs|) && All(addressed, |intfs|)
    ensures ok ==> Tracked(links.macs, old(links.names), intfs, |intfs|, links.names)
  {
    ghost var orig := links.names;
    for k := 0 to |intfs|
      invariant links.Valid() && |orig| == |links.macs|
      invariant AllFeasible(links.macs, orig, links.accepts, intfs, k) && All(addressed, k)
      invariant Tracked(links.macs, orig, intfs, k, links.names)
    {
      var found := links.FindByMac(intfs[k].mac);
      if found.None? {
        assert !Feasible(links.macs, orig, links.accepts, intfs, k);
        return false;
      }
      if !addressed[k] { return false; }
      ghost var before := links.names;
      FeasibleHere(links.macs, orig, links.accepts, intfs, k, before, found.value);
      ok := UpdateName(links, found.value, intfs[k].name);
      if !ok { return false; }
      OneInterface(links.macs, orig, intfs, k, before, found.value, links.names);
    }
    return true;
  }

  /** One interface of the loop. */
  method UpdateName(links: Links, own: nat, name: string) returns (ok: bool)
    requires links.Valid() && own < |links.names|
    modifies links
    ensures links.Valid()
    ensures ok <==> Settable(old(links.names), links.accepts, own, name)
    ensures ok ==> Given(old(links.names), own, name, links.names)
  {
    if links.names[own] != name {
      var holder := links.FindByName(name);
      if holder.Some? {
        ok := links.Rename(holder.value, links.names[holder.value] + TMP);
        if !ok { return; }
        assert name !in links.names;
      }
    }
    ok := links.Rename(own, name);
  }

  /** A link bears the name its interface asked for unless a later interface is for the same link or
      asks for the same name; so swaps and cycles come out right. */
  lemma {:induction false} RequestIsMet(name: string, mac: string, intfs: seq<Interface>, q: nat, k: nat)
    requires q < k <= |intfs| && intfs[q].mac == mac
    requires forall r :: q < r < k ==> intfs[r].mac != mac && intfs[r].name != intfs[q].name
    ensures Track(name, mac, intfs, k) == intfs[q].name
  {
    if k > q + 1 { RequestIsMet(name, mac, intfs, q, k - 1); }
  }

  /** A link that no interface is for keeps its name if and only if nobody asks for it. */
  lemma {:induction false} OthersKeepTheirNames(name: string, mac: string, intfs: seq<Interface>, k: nat)
    requires k <= |intfs| && forall r :: 0 <= r < k ==> intfs[r].mac != mac
    ensures Track(name, mac, intfs, k) == name <==> forall r :: 0 <= r < k ==> intfs[r].name != name
    ensures |Track(name, mac, intfs, k)| >= |name|
  {
    if k > 0 { OthersKeepTheirNames(name, mac, intfs, k - 1); }
  }

  // ---- Requests the host means to make ----

  /** Some other link has the name that interface `q` asks for. */
  predicate Contested(macs: seq<string>, orig: seq<string>, intfs: seq<Interface>, q: nat)
    requires |macs| == |orig| && q < |intfs|
  {
    exists i :: 0 <= i < |macs| && orig[i] == intfs[q].name && macs[i] != intfs[q].mac
  }

  /** Existing links, each once, and distinct acceptable names; the temporary name of a contested name
      is acceptable and neither in use nor asked for. */
  ghost predicate Renaming(macs: seq<string>, orig: seq<string>, accepts: string -> bool, intfs: seq<Interface>)
    requires |macs| == |orig|
  {
    && (forall p, q :: 0 <= p < q < |intfs| ==> intfs[p].mac != intfs[q].mac && intfs[p].name != intfs[q].name)
    && (forall q :: 0 <= q < |intfs| ==> intfs[q].mac in macs && accepts(intfs[q].name))
    && (forall q :: 0 <= q < |intfs| && Contested(macs, orig, intfs, q) ==> FreeTmp(orig, accepts, intfs, intfs[q].name + TMP))
  }

  ghost predicate FreeTmp(orig: seq<string>, accepts: string -> bool, intfs: seq<Interface>, tmp: string) {
    accepts(tmp) && tmp !in orig && forall p :: 0 <= p < |intfs| ==> intfs[p].name != tmp
  }

  /** Where `mac` is among the first `k` interfaces, or -1. */
  function Find(intfs: seq<Interface>, mac: string, k: nat): (p: int)
    requires k <= |intfs|
    ensures -1 <= p < k
    ensures p >= 0 ==> intfs[p].mac == mac
    ensures p < 0 ==> forall q :: 0 <= q < k ==> intfs[q].mac != mac
  {
    if k == 0 then -1
    else
      var p := Find(intfs, mac, k - 1);
      if p >= 0 then p else if intfs[k - 1].mac == mac then k - 1 else -1
  }

  predicate Requested(intfs: seq<Interface>, name: string, k: nat)
    requires k <= |intfs|
  {
    exists q :: 0 <= q < k && intfs[q].name == name
  }

  /** The name of link `i` in such a request: what it asked for, or its first name, or that name made
      temporary. */
  function NameAfter(macs: seq<string>, orig: seq<string>, intfs: seq<Interface>, k: nat, i: nat): string
    requires |macs| == |orig| && k <= |intfs| && i < |macs|
  {
    var p := Find(intfs, macs[i], k);
    if p >= 0 then intfs[p].name
    else if Requested(intfs, orig[i], k) then orig[i] + TMP
    else orig[i]
  }

  lemma {:induction false} SameTmp(a: string, b: string)
    ensures a + TMP == b + TMP <==> a == b
  {
    assert a == (a + TMP)[..|a|] && b == (b + TMP)[..|b|];
    assert |a + TMP| == |b + TMP| <==> |a| == |b|;
  }

  /** A link holding the next interface's name is one that has kept its first name. */
  lemma {:induction false} HolderIsUnmoved(macs: seq<string>, orig: seq<string>, accepts: string -> bool, intfs: seq<Interface>, k: nat, j: nat)
    requires |macs| == |orig| && Renaming(macs, orig, accepts, intfs)
    requires k < |intfs| && j < |macs| && macs[j] != intfs[k].mac
    requires NameAfter(macs, orig, intfs, k, j) == intfs[k].name
    ensures orig[j] == intfs[k].name && Find(intfs, macs[j], k + 1) < 0
    ensures Contested(macs, orig, intfs, k)
  {
    TakenTmpIsNotRequested(macs, orig, accepts, intfs, k, j);
  }

  lemma {:induction false} TakenTmpIsNotRequested(macs: seq<string>, orig: seq<string>, accepts: string -> bool, intfs: seq<Interface>, k: nat, j: nat)
    requires |macs| == |orig| && Renaming(macs, orig, accepts, intfs) && k < |intfs| && j < |macs|
    ensures Find(intfs, macs[j], k) < 0 && Requested(intfs, orig[j], k) ==> orig[j] + TMP != intfs[k].name
  {
    if Find(intfs, macs[j], k) < 0 && Requested(intfs, orig[j], k) {
      var q :| 0 <= q < k && intfs[q].name == orig[j];
      assert Contested(macs, orig, intfs, q);
    }
  }

  /** The temporary name the next interface may need is free. */
  lemma {:induction false} TmpIsFree(macs: seq<string>, orig: seq<string>, accepts: string -> bool, intfs: seq<Interface>, k: nat, j: nat)
    requires |macs| == |orig| && Renaming(macs, orig, accepts, intfs)
    requires k < |intfs| && j < |macs| && Contested(macs, orig, intfs, k)
    ensures NameAfter(macs, orig, intfs, k, j) != intfs[k].name + TMP
  {
    SameTmp(orig[j], intfs[k].name);
  }

  lemma {:induction false} ClosedForm(macs: seq<string>, orig: seq<string>, accepts: string -> bool, intfs: seq<Interface>, k: nat, j: nat)
    requires |macs| == |orig| && Renaming(macs, orig, accepts, intfs) && k <= |intfs| && j < |macs|
    ensures Track(orig[j], macs[j], intfs, k) == NameAfter(macs, orig, intfs, k, j)
  {
    if k > 0 {
      ClosedForm(macs, orig, accepts, intfs, k - 1, j);
      if macs[j] != intfs[k - 1].mac { OtherLink(macs, orig, accepts, intfs, k - 1, j); }
    }
  }

  /** How one interface changes the name of a link that is not its own. */
  lemma {:induction false} OtherLink(macs: seq<string>, orig: seq<string>, accepts: string -> bool, intfs: seq<Interface>, k: nat, j: nat)
    requires |macs| == |orig| && Renaming(macs, orig, accepts, intfs)
    requires k < |intfs| && j < |macs| && macs[j] != intfs[k].mac
    ensures var was := NameAfter(macs, orig, intfs, k, j);
            NameAfter(macs, orig, intfs, k + 1, j) == if was == intfs[k].name then was + TMP else was
  {
    if NameAfter(macs, orig, intfs, k, j) == intfs[k].name {
      HolderIsUnmoved(macs, orig, accepts, intfs, k, j);
      assert intfs[k].name == orig[j];
    } else if Find(intfs, macs[j], k) < 0 {
      assert Requested(intfs, orig[j], k) ==> Requested(intfs, orig[j], k + 1);
    }
  }

  lemma {:induction false} TmpForHolder(macs: seq<string>, orig: seq<string>, accepts: string -> bool, intfs: seq<Interface>, k: nat,
                                        names: seq<string>, j: nat)
    requires |macs| == |orig| && Renaming(macs, orig, accepts, intfs) && k < |intfs| && |names| == |macs|
    requires forall i :: 0 <= i < |names| ==> names[i] == NameAfter(macs, orig, intfs, k, i)
    requires j < |names| && names[j] == intfs[k].name && macs[j] != intfs[k].mac
    ensures accepts(intfs[k].name + TMP) && intfs[k].name + TMP !in names
  {
    HolderIsUnmoved(macs, orig, accepts, intfs, k, j);
    forall i | 0 <= i < |names| ensures names[i] != intfs[k].name + TMP {
      TmpIsFree(macs, orig, accepts, intfs, k, i);
    }
  }

  lemma {:induction false} ProperSettable(macs: seq<string>, orig: seq<string>, accepts: string -> bool, intfs: seq<Interface>, k: nat,
                                          names: seq<string>, own: nat)
    requires |macs| == |orig| && Distinct(macs) && Renaming(macs, orig, accepts, intfs) && k < |intfs| && |names| == |macs|
    requires forall i :: 0 <= i < |names| ==> names[i] == NameAfter(macs, orig, intfs, k, i)
    requires own < |macs| && macs[own] == intfs[k].mac
    ensures Settable(names, accepts, own, intfs[k].name)
  {
    if intfs[k].name in names && names[own] != intfs[k].name {
      var j :| 0 <= j < |names| && names[j] == intfs[k].name;
      assert macs[j] != macs[own];
      TmpForHolder(macs, orig, accepts, intfs, k, names, j);
    }
  }

  /** Such a request is feasible from beginning to end. */
  lemma {:induction false} ProperIsFeasible(macs: seq<string>, orig: seq<string>, accepts: string -> bool, intfs: seq<Interface>, k: nat)
    requires |macs| == |orig| && Distinct(macs) && Renaming(macs, orig, accepts, intfs) && k < |intfs|
    ensures Feasible(macs, orig, accepts, intfs, k)
  {
    var own :| 0 <= own < |macs| && macs[own] == intfs[k].mac;
    var names := NamesAfter(macs, orig, intfs, k);
    forall i | 0 <= i < |names| ensures names[i] == NameAfter(macs, orig, intfs, k, i) {
      ClosedForm(macs, orig, accepts, intfs, k, i);
    }
    ProperSettable(macs, orig, accepts, intfs, k, names, own);
    assert SettableAt(macs, orig, accepts, intfs, k, own);
  }

  /** After such a request every link asked for bears the name asked for. */
  lemma {:induction false} EveryRequestIsMet(macs: seq<string>, orig: seq<string>, accepts: string -> bool, intfs: seq<Interface>, q: nat, i: nat)
    requires |macs| == |orig| && Renaming(macs, orig, accepts, intfs)
    requires q < |intfs| && i < |macs| && macs[i] == intfs[q].mac
    ensures Track(orig[i], macs[i], intfs, |intfs|) == intfs[q].name
  {
    RequestIsMet(orig[i], macs[i], intfs, q, |intfs|);
  }

  /** Without the condition on temporary names a request can fail: here `eth0` is contested and its
      temporary name belongs to a third link. */
  lemma {:induction false} TmpClash(accepts: string -> bool)
    ensures !Settable(["eth0", "eth1", "eth0-tmp"], accepts, 1, "eth0")
  {
    var n := ["eth0", "eth1", "eth0-tmp"];
    assert "eth0" + TMP == "eth0-tmp";
    assert n[0] == "eth0" && n[2] == "eth0-tmp" && n[1] != "eth0";
  }
}
