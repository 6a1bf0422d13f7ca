/** Replacing the token file: a temporary file is written, synced and renamed over the
    path, then the directory is synced. The disk keeps what processes see apart from what
    a power loss may leave behind. */
module TokenStore {
  import opened Wrappers

  /** Which calls of one save fail, and how much of the data a failing write gets out. */
  datatype Faults = Faults(create: bool, chmod: bool, write: bool, written: nat, sync: bool, close: bool,
                           rename: bool, openDir: bool, syncDir: bool, closeDir: bool, remove: bool)

  const AUTH_FILE := "auth.json"

  function Lookup(names: map<string, nat>, name: string): Option<nat> {
    if name in names then Some(names[name]) else None
  }

  /** What a power loss may leave under an entry: nothing, the synced content, or, for data
      that never reached the disk, anything at all. */
  ghost predicate LeavesBehind(entry: Option<nat>, stable: map<nat, string>, r: Option<string>) {
    match entry
    case None => r == None
    case Some(i) => r.Some? && (i in stable ==> r.value == stable[i])
  }

  /** The directory of the token file. `names` and `contents` are what open and read see;
      `entries` are the entries of the token path any of which may survive a power loss, and
      `stable` the contents that are on disk for certain. */
  class Disk {
    var names: map<string, nat>
    var contents: map<nat, string>
    ghost var entries: set<Option<nat>>
    ghost var stable: map<nat, string>
    /** Everything a power loss could have left at the token path at some moment since the
        current save began. */
    ghost var survivors: iset<Option<string>>
    /** Everything a reader without the lock could have found there since then. */
    ghost var views: set<Option<string>>

    ghost predicate Valid()
      reads this
    {
      && (forall n | n in names :: names[n] in contents)
      && (forall n, m | n in names && m in names && n != m :: names[n] != names[m])
      && Lookup(names, AUTH_FILE) in entries
      && (forall e | e in entries && e.Some? :: e.value in contents)
      && (forall i | i in stable :: i in contents && contents[i] == stable[i])
      && (forall r :: MaySurvive(r) ==> r in survivors)
      && View() in views
    }

    ghost function View(): Option<string>
      reads this
    {
      if AUTH_FILE in names && names[AUTH_FILE] in contents then Some(contents[names[AUTH_FILE]]) else None
    }

    ghost predicate MaySurvive(r: Option<string>)
      reads this
    {
      exists e | e in entries :: LeavesBehind(e, stable, r)
    }

    /** What a power loss at this moment may leave at the token path. */
    ghost function Now(): iset<Option<string>>
      reads this
    {
      iset r | MaySurvive(r)
    }

    /** A power loss at this moment changes nothing for readers. */
    ghost predicate Settled()
      reads this
    {
      Now() <= iset{View()}
    }

    /** From here on `survivors` and `views` are about the save that begins. */
    ghost method Watch()
      requires Valid()
      modifies this`survivors, this`views
      ensures Valid() && View() == old(View()) && Now() == old(Now())
      ensures survivors == Now() && views == {View()}
    {
      hide LeavesBehind;
      survivors, views := Now(), {View()};
    }

    /** The name is free and is not the token's; no entry of the token path is this inode. */
    ghost predicate Temporary(tmp: string, inode: nat)
      reads this
    {
      tmp != AUTH_FILE && tmp in names && names[tmp] == inode && Some(inode) !in entries
    }

    method CreateTemp(tmp: string, inode: nat, fails: bool) returns (ok: bool)
      requires Valid() && tmp != AUTH_FILE && tmp !in names && inode !in contents
      modifies this`names, this`contents
      ensures Valid() && ok == !fails
      ensures names == (if ok then old(names)[tmp := inode] else old(names))
      ensures contents == (if ok then old(contents)[inode := ""] else old(contents))
      ensures View() == old(View())
    {
      ok := !fails;
      if ok {
        names := names[tmp := inode];
        contents := contents[inode := ""];
      }
    }

    /** A write puts out all of the data or, failing, some prefix of it. */
    method Write(tmp: string, inode: nat, bytes: string, fails: bool, written: nat) returns (ok: bool)
      requires Valid() && Temporary(tmp, inode) && inode !in stable && contents[inode] == ""
      modifies this`contents
      ensures Valid() && ok == !fails && View() == old(View())
      ensures contents == old(contents)[inode := if ok then bytes else bytes[..if written <= |bytes| then written else |bytes|]]
    {
      ok := !fails;
      contents := contents[inode := if ok then bytes else bytes[..if written <= |bytes| then written else |bytes|]];
    }

    method Sync(tmp: string, inode: nat, fails: bool) returns (ok: bool)
      requires Valid() && Temporary(tmp, inode)
      modifies this`stable
      ensures Valid() && ok == !fails && View() == old(View())
      ensures stable == if ok then old(stable)[inode := contents[inode]] else old(stable)
      ensures forall r :: MaySurvive(r) ==> old(MaySurvive(r))
    {
      ok := !fails;
      if ok {
        stable := stable[inode := contents[inode]];
        assert forall e, r | e in entries && LeavesBehind(e, stable, r) :: LeavesBehind(e, old(stable), r);
      }
    }

    /** Visible at once and whole; the old entry may come back until the directory is synced. */
    method Rename(tmp: string, inode: nat, fails: bool) returns (ok: bool)
      requires Valid() && Temporary(tmp, inode)
      modifies this`names, this`entries, this`survivors, this`views
      ensures Valid() && ok == !fails
      ensures names == (if ok then (old(names) - {tmp})[AUTH_FILE := inode] else old(names))
      ensures entries == (if ok then old(entries) + {Some(inode)} else old(entries))
      ensures ok ==> views == old(views) + {Some(contents[inode])}
      ensures ok ==> survivors == old(survivors) + iset r | LeavesBehind(Some(inode), stable, r)
      ensures !ok ==> views == old(views) && survivors == old(survivors)
    {
      ok := !fails;
      if ok {
        names := (names - {tmp})[AUTH_FILE := inode];
        entries := entries + {Some(inode)};
        survivors := survivors + iset r | LeavesBehind(Some(inode), stable, r);
        views := views + {View()};
      }
    }

    method Remove(name: string, fails: bool)
      requires Valid() && name != AUTH_FILE
      modifies this`names
      ensures Valid() && View() == old(View())
      ensures names == if fails then old(names) else old(names) - {name}
    {
      if !fails {
        names := names - {name};
      }
    }

    method SyncDir(fails: bool) returns (ok: bool)
      requires Valid()
      modifies this`entries
      ensures Valid() && ok == !fails
      ensures entries == if ok then {Lookup(names, AUTH_FILE)} else old(entries)
    {
      ok := !fails;
      if ok {
        entries := {Lookup(names, AUTH_FILE)};
      }
    }

    /** The new temporary file gets its mode and its content, and is synced and closed. */
    method FillTemp(bytes: string, tmp: string, inode: nat, f: Faults) returns (ok: bool)
      requires Valid() && Temporary(tmp, inode) && inode !in stable && contents[inode] == ""
      modifies this`contents, this`stable
      ensures Valid() && Temporary(tmp, inode) && View() == old(View())
      ensures ok == !(f.chmod || f.write || f.sync || f.close)
      ensures ok ==> contents[inode] == bytes && inode in stable
      ensures contents.Keys == old(contents.Keys)
      ensures forall i | i in old(contents) && i != inode :: contents[i] == old(contents)[i]
    {
      hide View, MaySurvive, LeavesBehind;
      if f.chmod {
        return false;
      }
      ok := Write(tmp, inode, bytes, f.write, f.written);
      if !ok {
        return;
      }
      ok := Sync(tmp, inode, f.sync);
      if !ok || f.close {
        return false;
      }
    }

    /** The temporary file, complete and synced; on any failure it is removed again. */
    method PrepareTemp(bytes: string, tmp: string, inode: nat, f: Faults) returns (ok: bool)
      requires Valid() && tmp != AUTH_FILE && tmp !in names && inode !in contents
      modifies this`names, this`contents, this`stable
      ensures Valid() && View() == old(View())
      ensures ok == !(f.create || f.chmod || f.write || f.sync || f.close)
      ensures ok ==> Temporary(tmp, inode) && contents[inode] == bytes && inode in stable && names == old(names)[tmp := inode]
      ensures !ok ==> names == old(names) || (f.remove && names == old(names)[tmp := inode])
      ensures old(contents.Keys) <= contents.Keys <= old(contents.Keys) + {inode}
      ensures forall i | i in old(contents) :: contents[i] == old(contents)[i]
    {
      hide View, LeavesBehind, MaySurvive;
      ok := CreateTemp(tmp, inode, f.create);
      if !ok {
        return;
      }
      ok := FillTemp(bytes, tmp, inode, f);
      if !ok {
        Remove(tmp, f.remove);
      }
    }

    /** The finished temporary file takes the token's place; a failed rename removes it. */
    method Install(bytes: string, tmp: string, inode: nat, f: Faults) returns (ok: bool)
      requires Valid() && Temporary(tmp, inode) && inode in stable && contents[inode] == bytes
      modifies this`names, this`entries, this`survivors, this`views
      ensures Valid() && ok == !(f.rename || f.openDir || f.syncDir || f.closeDir)
      ensures survivors <= old(survivors) + iset{Some(bytes)} && views <= old(views) + {Some(bytes)}
      ensures View() == if f.rename then old(View()) else Some(bytes)
      ensures ok ==> Now() == iset{Some(bytes)}
      ensures forall n | n != tmp && n != AUTH_FILE :: Lookup(names, n) == Lookup(old(names), n)
      ensures tmp !in names || f.remove
    {
      ok := Rename(tmp, inode, f.rename);
      if !ok {
        Remove(tmp, f.remove);
        return;
      }
      if f.openDir {
        return false;
      }
      ok := SyncDir(f.syncDir);
      if !ok {
        return;
      }
      ok := !f.closeDir;
    }

    /** `saveTokensUnlocked`, with the marshalled token and any pattern of failing calls.
        At every moment of the save a power loss leaves the new content whole or what it could
        have left when the save began, and a reader sees the content from then or the new
        one: the whole old or the whole new content, if the save before this one returned
        nil. Files that readers may have open are not written. A nil return makes the new
        content certain, and an error leaves it visible exactly when the rename was done. No
        temporary file stays behind unless removing it fails as well. */
    method SaveTokensUnlocked(bytes: string, tmp: string, inode: nat, f: Faults) returns (ok: bool)
      requires Valid() && tmp != AUTH_FILE && tmp !in names && inode !in contents
      modifies this
      ensures Valid()
      ensures survivors <= old(Now()) + iset{Some(bytes)}
      ensures views <= {old(View()), Some(bytes)}
      ensures old(Settled()) ==> survivors <= iset{old(View()), Some(bytes)}
      ensures ok == !(f.create || f.chmod || f.write || f.sync || f.close || f.rename || f.openDir || f.syncDir || f.closeDir)
      ensures ok ==> View() == Some(bytes) && Now() == iset{Some(bytes)} && Settled()
      ensures View() == if f.create || f.chmod || f.write || f.sync || f.close || f.rename then old(View()) else Some(bytes)
      ensures old(contents.Keys) <= contents.Keys <= old(contents.Keys) + {inode}
      ensures forall i | i in old(contents) :: contents[i] == old(contents)[i]
      ensures forall n | n != tmp && n != AUTH_FILE :: Lookup(names, n) == Lookup(old(names), n)
      ensures tmp !in names || f.remove
    {
      hide Valid, View, Now;
      Watch();
      ok := PrepareTemp(bytes, tmp, inode, f);
      if ok {
        ok := Install(bytes, tmp, inode, f);
      }
    }
  }

  /** Two saves in a row: once the first returned nil, nothing from before it can come back,
      neither to a reader nor after a power loss, at any moment of the second. */
  method SaveTwice(disk: Disk, first: string, second: string, tmp: string, tmp': string, inode: nat, inode': nat, f: Faults, f': Faults)
    returns (ok: bool, ok': bool)
    requires disk.Valid() && tmp != AUTH_FILE && tmp !in disk.names && inode !in disk.contents
    requires tmp' != AUTH_FILE && tmp' != tmp && tmp' !in disk.names && inode' != inode && inode' !in disk.contents
    modifies disk
    ensures disk.Valid()
    ensures ok ==> disk.survivors <= iset{Some(first), Some(second)} && disk.views <= {Some(first), Some(second)}
  {
    ok := disk.SaveTokensUnlocked(first, tmp, inode, f);
    assert Lookup(disk.names, tmp') == None;
    ok' := disk.SaveTokensUnlocked(second, tmp', inode', f');
  }
}
