/** Putting a tmp checkout in the place of a live one by renaming. Every file
    system the program passes through is one a crash may leave behind. */
module SwapDir {
  import opened Options

  /** A directory tree as it was written, or one only partly written or removed. */
  datatype Tree = Whole(content: nat) | Broken

  type Fs = map<string, Tree>

  /** Answers of the system: whether each call works. `install` etc. are the
      renames; `cleared` is the removal of the retired tree. */
  datatype Answers = Answers(stat: bool, retire: bool, install: bool, restore: bool, cleared: bool)

  function At(fs: Fs, path: string): Option<Tree>
  {
    if path in fs then Some(fs[path]) else None
  }

  // ---- what a crash may find ----

  /** The old tree is intact, in its place or set aside; if there was none, the
      place is empty. */
  predicate OldThere(fs: Fs, dst: string, retired: string, old': Option<Tree>)
  {
    match old'
    case None => dst !in fs
    case Some(tree) => At(fs, dst) == Some(tree) || (dst !in fs && At(fs, retired) == Some(tree))
  }

  /** Up to some point of the trail the old tree is there, from then on the new
      one is in its place. */
  ghost predicate SwappedAt(trail: seq<Fs>, k: nat, dst: string, retired: string, old': Option<Tree>, new': Tree)
  {
    && k <= |trail|
    && (forall i :: 0 <= i < k ==> OldThere(trail[i], dst, retired, old'))
    && (forall i :: k <= i < |trail| ==> At(trail[i], dst) == Some(new'))
  }

  /** Only these paths differ. */
  ghost predicate Elsewhere(a: Fs, b: Fs, touched: set<string>)
  {
    forall p :: p !in touched ==> At(a, p) == At(b, p)
  }

  /** The file system after the second half, from the one with `dst` free. */
  function Installed(fs: Fs, tmp: string, dst: string, retired: string, replacing: bool, ok: bool, a: Answers): Fs
    requires tmp in fs && (replacing ==> retired in fs)
  {
    var done := (fs - {tmp})[dst := fs[tmp]];
    if ok then (if !replacing then done else if a.cleared then done - {retired} else done[retired := Broken])
    else if replacing && a.restore then (fs - {retired})[dst := fs[retired]]
    else fs
  }

  /** Both halves together: from `was` over `mid`, with the old tree aside. */
  lemma InstalledFs(was: Fs, mid: Fs, tmp: string, dst: string, retired: string, replacing: bool, a: Answers)
    requires tmp in was && tmp != dst && tmp != retired && dst != retired && (replacing <==> dst in was)
    requires mid == if replacing then (was - {dst})[retired := was[dst]] else was
    requires replacing ==> retired !in was
    ensures tmp in mid && (replacing ==> retired in mid)
    ensures var fs := Installed(mid, tmp, dst, retired, replacing, true, a);
            && At(fs, dst) == Some(was[tmp]) && tmp !in fs && Elsewhere(was, fs, {tmp, dst, retired})
            && (a.cleared && replacing ==> retired !in fs)
    ensures var fs := Installed(mid, tmp, dst, retired, replacing, false, a);
            && (a.restore || !replacing ==> fs == was) && Elsewhere(was, fs, {tmp, dst, retired})
            && (fs == was || (dst !in fs && At(fs, retired) == At(was, dst) && At(fs, tmp) == Some(was[tmp])))
  {
  }

  /** What a swap did: `added` are the states it passed through. */
  ghost predicate Swapped(was: Fs, fs: Fs, added: seq<Fs>, ok: bool, k: nat, tmp: string, dst: string, retired: string,
                          a: Answers)
    requires tmp in was
  {
    && (ok <==> a.stat && a.install && (dst in was ==> a.retire && retired !in was))
    && SwappedAt(added, k, dst, retired, At(was, dst), was[tmp])
    && Elsewhere(was, fs, {tmp, dst, retired})
    && (ok ==> At(fs, dst) == Some(was[tmp]) && tmp !in fs && k < |added|)
    && (ok && a.cleared && dst in was ==> retired !in fs)
    && (!ok ==> k == |added|)
    && (!ok && (a.restore || dst !in was) ==> fs == was)
    && (!ok ==> fs == was || (dst !in fs && At(fs, retired) == At(was, dst) && At(fs, tmp) == Some(was[tmp])))
    && (dst in was && a.stat && a.retire && retired !in was ==> added != [] && dst !in added[0])
    && (dst in was && !(a.stat && a.retire && retired !in was) ==> forall i :: 0 <= i < |added| ==> added[i] == was)
  }

  class Disk {
    var fs: Fs
    /** The states so far, oldest first. */
    ghost var trail: seq<Fs>

    /** A rename works if the system lets it, from an existing path to a free one. */
    method Rename(from: string, to: string, works: bool) returns (ok: bool)
      modifies this
      ensures ok <==> works && from in old(fs) && to !in old(fs)
      ensures fs == if ok then (old(fs) - {from})[to := old(fs)[from]] else old(fs)
      ensures trail == old(trail) + [fs]
    {
      ok := works && from in fs && to !in fs;
      if ok {
        fs := (fs - {from})[to := fs[from]];
      }
      trail := trail + [fs];
    }

    /** A removal passes through a half-removed tree, and may stop there. */
    method RemoveAll(path: string, works: bool)
      modifies this
      ensures path !in old(fs) ==> fs == old(fs) && trail == old(trail)
      ensures path in old(fs) ==> fs == if works then old(fs) - {path} else old(fs)[path := Broken]
      ensures path in old(fs) ==> trail == old(trail) + [old(fs)[path := Broken], fs]
    {
      if path in fs {
        fs := fs[path := Broken];
        trail := trail + [fs];
        if works {
          fs := fs - {path};
        }
        trail := trail + [fs];
      }
    }

    /** Cloning passes through a half-written tree, and may stop there. */
    method Clone(path: string, content: nat, works: bool)
      modifies this
      ensures fs == old(fs)[path := if works then Whole(content) else Broken]
      ensures trail == old(trail) + [old(fs)[path := Broken], fs]
    {
      fs := fs[path := Broken];
      trail := trail + [fs];
      if works {
        fs := fs[path := Whole(content)];
      }
      trail := trail + [fs];
    }

    /** Moves `tmp` onto `dst`. Whatever fails and wherever it stops, the old tree
        is intact until the new one is in place. A swap that works leaves the new
        tree; one that fails leaves everything as it was, unless putting the old
        tree back fails as well. */
    method Swap(tmp: string, dst: string, suffix: string, a: Answers) returns (ok: bool, ghost k: nat)
      requires tmp in fs && tmp != dst && tmp != dst + ".old-" + suffix
      modifies this
      ensures var was, retired := old(fs), dst + ".old-" + suffix;
              && |old(trail)| <= |trail| && trail[..|old(trail)|] == old(trail)
              && SwappedAt(trail[|old(trail)|..], k, dst, retired, At(was, dst), was[tmp])
              && Elsewhere(was, fs, {tmp, dst, retired})
              && (ok ==> At(fs, dst) == Some(was[tmp]) && tmp !in fs && k < |trail| - |old(trail)|)
              && (ok && a.cleared && dst in was ==> retired !in fs)
              && (!ok ==> k == |trail| - |old(trail)|)
              && (!ok && (a.restore || dst !in was) ==> fs == was)
              && (!ok ==> fs == was || (dst !in fs && At(fs, retired) == At(was, dst) && At(fs, tmp) == Some(was[tmp])))
              && (dst in was ==>
                    ((exists i :: |old(trail)| <= i < |trail| && dst !in trail[i]) <==>
                        a.stat && a.retire && retired !in was))
      ensures ok <==> a.stat && a.install && (dst in old(fs) ==> a.retire && dst + ".old-" + suffix !in old(fs))
    {
      ok, k := RetireAndInstall(tmp, dst, suffix, a);
      ghost var n := |old(trail)|;
      assert forall i :: n <= i < |trail| ==> trail[i] == trail[n..][i - n];
    }

    /** The first half sets the old tree aside, if there is one. */
    method RetireAndInstall(tmp: string, dst: string, suffix: string, a: Answers) returns (ok: bool, ghost k: nat)
      requires tmp in fs && tmp != dst && tmp != dst + ".old-" + suffix
      modifies this
      ensures var was, retired, begun := old(fs), dst + ".old-" + suffix, |old(trail)|;
              && begun <= |trail| && trail[..begun] == old(trail)
              && Swapped(was, fs, trail[begun..], ok, k, tmp, dst, retired, a)
    {
      ghost var n, was := |trail|, fs;
      var retired := dst + ".old-" + suffix;
      if !a.stat {
        return false, 0;
      }
      if dst !in fs {
        InstalledFs(was, was, tmp, dst, retired, false, a);
        ok, k := Install(tmp, dst, retired, false, a);
        return;
      }
      ok := Rename(dst, retired, a.retire);
      assert trail[n..] == [fs];
      if !ok {
        return false, 1;
      }
      ghost var mid, aside := trail, fs;
      InstalledFs(was, aside, tmp, dst, retired, true, a);
      ok, k := Install(tmp, dst, retired, true, a);
      assert trail[n..] == [aside] + trail[|mid|..];
      SwapAfter([aside], trail[|mid|..], k, dst, retired, At(was, dst), was[tmp]);
      k := k + 1;
    }

    /** The second half: the new tree into the empty place, or else the old one
        back. */
    method Install(tmp: string, dst: string, retired: string, replacing: bool, a: Answers)
      returns (ok: bool, ghost k: nat)
      requires tmp in fs && dst !in fs && (replacing ==> retired in fs) && retired != dst && retired != tmp
      modifies this
      ensures ok <==> a.install
      ensures var was, begun := old(fs), |old(trail)|;
              && begun <= |trail| && trail[..begun] == old(trail)
              && SwappedAt(trail[begun..], k, dst, retired, if replacing then At(was, retired) else None, was[tmp])
              && k <= |trail| - begun && (ok ==> k < |trail| - begun) && (!ok ==> k == |trail| - begun)
              && fs == Installed(was, tmp, dst, retired, replacing, ok, a)
    {
      ghost var n := |trail|;
      ok := Rename(tmp, dst, a.install);
      k := 0;
      if !ok {
        if replacing {
          var back := Rename(retired, dst, a.restore);
        }
        k := |trail| - n;
      } else if replacing {
        RemoveAll(retired, a.cleared);
      }
    }

    /** Clones into a temporary directory and swaps it in; the temporary directory
        is removed in the end, unless it has become the new tree. */
    method CloneSwap(tmp: string, dst: string, suffix: string, content: nat, made: bool, cloned: bool, swept: bool,
                     a: Answers)
      returns (ok: bool, ghost k: nat)
      requires tmp !in fs && tmp != dst && tmp != dst + ".old-" + suffix
      modifies this
      ensures var was, retired, begun := old(fs), dst + ".old-" + suffix, |old(trail)|;
              && begun <= |trail| && trail[..begun] == old(trail)
              && SwappedAt(trail[begun..], k, dst, retired, At(was, dst), Whole(content))
              && Elsewhere(was, fs, {tmp, dst, retired})
              && (ok ==> At(fs, dst) == Some(Whole(content)) && tmp !in fs)
              && (!ok ==> k == |trail| - begun && OldThere(fs, dst, retired, At(was, dst)))
              && (!ok && swept && (a.restore || dst !in was) ==> fs == was)
      ensures ok <==>
                && made && cloned && a.stat && a.install
                && (dst in old(fs) ==> a.retire && dst + ".old-" + suffix !in old(fs))
    {
      ghost var n, was, retired := |trail|, fs, dst + ".old-" + suffix;
      if !made {
        return false, 0;
      }
      Clone(tmp, content, cloned);
      if !cloned {
        RemoveAll(tmp, swept);
        k := |trail| - n;
        return false, k;
      }
      ghost var before := trail;
      ok, k := SwapAndSweep(tmp, dst, suffix, swept, a);
      SwapAfter(before[n..], trail[|before|..], k, dst, retired, At(was, dst), Whole(content));
      assert trail[n..] == before[n..] + trail[|before|..];
      k := k + 2;
    }

    method SwapAndSweep(tmp: string, dst: string, suffix: string, swept: bool, a: Answers)
      returns (ok: bool, ghost k: nat)
      requires tmp in fs && tmp != dst && tmp != dst + ".old-" + suffix
      modifies this
      ensures var was, retired, begun := old(fs), dst + ".old-" + suffix, |old(trail)|;
              && begun <= |trail| && trail[..begun] == old(trail)
              && SwappedAt(trail[begun..], k, dst, retired, At(was, dst), was[tmp])
              && Elsewhere(was, fs, {tmp, dst, retired})
              && (ok ==> At(fs, dst) == Some(was[tmp]) && tmp !in fs)
              && (!ok ==> k == |trail| - begun && OldThere(fs, dst, retired, At(was, dst)))
              && (!ok && swept && (a.restore || dst !in was) ==> fs == was - {tmp})
      ensures ok <==> a.stat && a.install && (dst in old(fs) ==> a.retire && dst + ".old-" + suffix !in old(fs))
    {
      ghost var n, was, retired := |trail|, fs, dst + ".old-" + suffix;
      ok, k := Swap(tmp, dst, suffix, a);
      ghost var swapped := trail;
      RemoveAll(tmp, swept);
      if !ok {
        assert trail[n..] == swapped[n..] + trail[|swapped|..];
        SwapThen(swapped[n..], trail[|swapped|..], dst, retired, At(was, dst), was[tmp]);
        k := |trail| - n;
      }
    }
  }

  /** Before a swap the old tree is in its place. */
  lemma SwapAfter(before: seq<Fs>, swap: seq<Fs>, k: nat, dst: string, retired: string, old': Option<Tree>, new': Tree)
    requires SwappedAt(swap, k, dst, retired, old', new')
    requires forall i :: 0 <= i < |before| ==> OldThere(before[i], dst, retired, old')
    ensures SwappedAt(before + swap, |before| + k, dst, retired, old', new')
  {
  }

  /** After one that failed the old tree stays. */
  lemma SwapThen(swap: seq<Fs>, after: seq<Fs>, dst: string, retired: string, old': Option<Tree>, new': Tree)
    requires SwappedAt(swap, |swap|, dst, retired, old', new')
    requires forall i :: 0 <= i < |after| ==> OldThere(after[i], dst, retired, old')
    ensures SwappedAt(swap + after, |swap| + |after|, dst, retired, old', new')
  {
  }

  /** No crash finds a half-written tree in the place, but it may find none. */
  lemma NeverHalfWritten(trail: seq<Fs>, k: nat, dst: string, retired: string, old': Option<Tree>, content: nat, i: nat)
    requires SwappedAt(trail, k, dst, retired, old', Whole(content)) && i < |trail| && old' != Some(Broken)
    ensures At(trail[i], dst) == None || At(trail[i], dst) == old' || At(trail[i], dst) == Some(Whole(content))
    ensures old'.Some? ==>
              At(trail[i], dst) == old' || At(trail[i], retired) == old' || At(trail[i], dst) == Some(Whole(content))
  {
    if i < k {
      assert OldThere(trail[i], dst, retired, old');
    }
  }
}
