/** The namespace list of a container, and the two tests made on it about the cgroup namespace. */
module Namespaces {
  import opened Wrappers
  import Bootstrap
  import Pipes

  datatype NsType = NewUser | NewIpc | NewUts | NewNet | NewPid | NewNs | NewCgroup | NewTime

  datatype Namespace = Namespace(kind: NsType, path: string)

  function Index(list: seq<Namespace>, t: NsType): (i: int)
    ensures -1 <= i < |list|
    ensures i >= 0 ==> list[i].kind == t && forall j :: 0 <= j < i ==> list[j].kind != t
    ensures i == -1 ==> forall j :: 0 <= j < |list| ==> list[j].kind != t
  {
    if list == [] then -1
    else if list[0].kind == t then 0
    else
      var i := Index(list[1..], t);
      if i == -1 then -1 else i + 1
  }

  predicate Contains(list: seq<Namespace>, t: NsType) {
    Index(list, t) != -1
  }

  function PathOf(list: seq<Namespace>, t: NsType): string {
    if Index(list, t) == -1 then "" else list[Index(list, t)].path
  }

  /** One flag per namespace type that is to be created rather than joined; each type has its own bit. */
  method CloneFlags(list: seq<Namespace>) returns (flags: set<NsType>)
    ensures forall t :: t in flags <==> exists i :: 0 <= i < |list| && list[i] == Namespace(t, "")
  {
    flags := {};
    for i := 0 to |list|
      invariant forall t :: t in flags <==> exists j :: 0 <= j < i && list[j] == Namespace(t, "")
    {
      if list[i].path != "" {
        continue;
      }
      flags := flags + {list[i].kind};
    }
  }

  ghost predicate Creates(list: seq<Namespace>, t: NsType) {
    exists i :: 0 <= i < |list| && list[i] == Namespace(t, "")
  }

  /** The parent looks at the first cgroup entry only; the stages look at the flags of the whole list. */
  ghost function BootConfig(list: seq<Namespace>): Bootstrap.Config {
    Bootstrap.Config(
      Creates(list, NewUser),
      Creates(list, NewCgroup),
      Contains(list, NewCgroup) && PathOf(list, NewCgroup) == "")
  }

  /** A cgroup entry to be joined is followed by one to be created. */
  ghost predicate JoinThenCreate(list: seq<Namespace>) {
    exists i, j :: 0 <= i < j < |list| && list[i].kind == NewCgroup && list[i].path != "" &&
      list[j] == Namespace(NewCgroup, "")
                   && forall k :: 0 <= k < i ==> list[k].kind != NewCgroup
  }

  ghost predicate DuplicateFree(list: seq<Namespace>) {
    forall i, j :: 0 <= i < j < |list| ==> list[i].kind != list[j].kind
  }

  /** The two tests agree except on lists whose first cgroup entry is joined and a later one created. */
  lemma ByteTestsAgree(list: seq<Namespace>)
    ensures BootConfig(list).sendByte == BootConfig(list).waitByte <==> !JoinThenCreate(list)
    ensures DuplicateFree(list) ==> BootConfig(list).sendByte == BootConfig(list).waitByte
  {
    var i := Index(list, NewCgroup);
    if Creates(list, NewCgroup) && !BootConfig(list).sendByte {
      var j :| 0 <= j < |list| && list[j] == Namespace(NewCgroup, "");
      assert 0 <= i < j && list[i].kind == NewCgroup && list[i].path != "";
    }
    if JoinThenCreate(list) {
      var i', j :| 0 <= i' < j < |list| && list[i'].kind == NewCgroup && list[i'].path != "" &&
                   list[j] == Namespace(NewCgroup, "") && forall k :: 0 <= k < i' ==> list[k].kind != NewCgroup;
      assert i == i';
    }
  }

  /** A container with this namespace list can be brought up exactly when the list is not of that shape. */
  lemma StartsUnlessJoinThenCreate(list: seq<Namespace>)
    ensures (exists acts ::
               && Bootstrap.Run(BootConfig(list), Bootstrap.Initial(), acts).Some?
               && Bootstrap.Run(BootConfig(list), Bootstrap.Initial(), acts).value.c == Bootstrap.Running) <==>
            !JoinThenCreate(list)
  {
    hide BootConfig, JoinThenCreate;
    ByteTestsAgree(list);
    Bootstrap.StartsIffByteAgrees(BootConfig(list));
  }

  /** Such a container hangs without any fault, and no other does. */
  lemma HangsOnJoinThenCreate(list: seq<Namespace>)
    ensures (exists acts :: Bootstrap.Hangs(BootConfig(list), acts)) <==> JoinThenCreate(list)
  {
    hide JoinThenCreate;
    ByteTestsAgree(list);
    Bootstrap.HangsExactly(BootConfig(list));
    NoStray(list);
  }

  /** The parent sends the byte only if the flags have it. */
  lemma NoStray(list: seq<Namespace>)
    ensures BootConfig(list).sendByte ==> BootConfig(list).waitByte
  {
    var i := Index(list, NewCgroup);
    if BootConfig(list).sendByte {
      assert list[i] == Namespace(NewCgroup, "");
    }
  }

  /**
   * The ID maps are written exactly when the list creates a user namespace: in every run, of a container that is
   * running both have been written, once, for stage 1; and for any other list none is ever written.
   */
  lemma MapsGoWithNewUser(list: seq<Namespace>, acts: seq<Bootstrap.Action>)
    requires Bootstrap.Run(BootConfig(list), Bootstrap.Initial(), acts).Some?
    ensures var s := Bootstrap.Run(BootConfig(list), Bootstrap.Initial(), acts).value;
            if exists i :: 0 <= i < |list| && list[i] == Namespace(NewUser, "") then
              s.c == Bootstrap.Running ==>
                s.uidMapped == Pipes.One(Bootstrap.Stage1Pid) && s.gidMapped == Pipes.One(Bootstrap.Stage1Pid)
            else s.uidMapped == Pipes.Empty && s.gidMapped == Pipes.Empty
  {
    hide Bootstrap.Run;
    Bootstrap.StagesAreOrdered(BootConfig(list), acts);
  }

  /** For example, joining one cgroup namespace and then creating another. */
  lemma JoinedThenCreatedDisagrees(list: seq<Namespace>)
    requires list == [Namespace(NewCgroup, "/proc/1/ns/cgroup"), Namespace(NewCgroup, "")]
    ensures BootConfig(list).sendByte != BootConfig(list).waitByte
  {
    assert list[0].kind == NewCgroup && list[1] == Namespace(NewCgroup, "");
    assert JoinThenCreate(list);
    ByteTestsAgree(list);
  }

  // ----- lists that come from a specification -----

  /** An entry of a specification; its type may be unknown. */
  datatype SpecEntry = SpecEntry(kind: Option<NsType>, path: string)

  /** What adding an entry does: a new type is appended, a known one gets the new path. */
  function Add(list: seq<Namespace>, t: NsType, path: string): seq<Namespace> {
    var i := Index(list, t);
    if i == -1 then list + [Namespace(t, path)] else list[i := list[i].(path := path)]
  }

  ghost predicate SpecIsFine(spec: seq<SpecEntry>) {
    && (forall i :: 0 <= i < |spec| ==> spec[i].kind.Some?)
    && (forall i, j :: 0 <= i < j < |spec| ==> spec[i].kind != spec[j].kind)
  }

  /** Fails exactly on an unknown or repeated type; otherwise the list has the same entries in the same order. */
  method FromSpec(spec: seq<SpecEntry>) returns (r: Option<seq<Namespace>>)
    ensures r.Some? <==> SpecIsFine(spec)
    ensures r.Some? ==> |r.value| == |spec| && forall i :: 0 <= i < |spec| ==>
            SpecEntry(Some(r.value[i].kind), r.value[i].path) == spec[i]
  {
    var list: seq<Namespace> := [];
    for i := 0 to |spec|
      invariant |list| == i && forall j :: 0 <= j < i ==> SpecEntry(Some(list[j].kind), list[j].path) == spec[j]
      invariant SpecIsFine(spec[..i])
    {
      if spec[i].kind.None? {
        return None;
      }
      var t := spec[i].kind.value;
      if Contains(list, t) {
        assert spec[Index(list, t)].kind == spec[i].kind;
        return None;
      }
      list := Add(list, t, spec[i].path);
    }
    assert spec[..|spec|] == spec;
    return Some(list);
  }

  /**
   * Every list that a specification yields is free of duplicates, so the two tests agree and the container can start.
   */
  lemma SpecListsStart(spec: seq<SpecEntry>, list: seq<Namespace>)
    requires SpecIsFine(spec) && |list| == |spec|
    requires forall i :: 0 <= i < |spec| ==> SpecEntry(Some(list[i].kind), list[i].path) == spec[i]
    ensures DuplicateFree(list) && BootConfig(list).sendByte == BootConfig(list).waitByte
    ensures exists acts ::
              && Bootstrap.Run(BootConfig(list), Bootstrap.Initial(), acts).Some?
              && Bootstrap.Run(BootConfig(list), Bootstrap.Initial(), acts).value.c == Bootstrap.Running
  {
    hide BootConfig, JoinThenCreate;
    forall i, j | 0 <= i < j < |list|
      ensures list[i].kind != list[j].kind
    {
      assert spec[i].kind != spec[j].kind;
    }
    ByteTestsAgree(list);
    StartsUnlessJoinThenCreate(list);
  }
}
