/** The cgroup path of a pod or container (pkg/cgroup/cgroup.go:48-120), the systemd slices it
    stands for, and what can be read back from it. */
module CgroupPath {
  import opened Options
  import opened Text

  const BURSTABLE := "Burstable"
  const BEST_EFFORT := "BestEffort"
  const GUARANTEED := "Guaranteed"

  /** What a cgroup path is built from; `group`, `uid` and `cid` may be empty. */
  datatype Identity = Identity(qosClass: string, group: string, uid: string, cid: string)

  /** The QoS class as it appears in a slice name; anything but the two lower classes is absent. */
  function QosText(id: Identity): string {
    if id.qosClass == BURSTABLE then "-burstable" else if id.qosClass == BEST_EFFORT then "-besteffort" else ""
  }

  function GroupText(id: Identity): string {
    if id.group != "" then "-" + ReplaceAll(id.group, '-', '_') else ""
  }

  function PodText(id: Identity): string {
    "-pod" + ReplaceAll(id.uid, '-', '_')
  }

  /** `cgroupPath` up to line 62, 79, 109 and 119; its error is always nil. */
  function QosPath(id: Identity): string {
    if QosText(id) != "" then JoinPath("/kubepods.slice", "kubepods" + QosText(id) + ".slice") else "/kubepods.slice"
  }

  function GroupPath(id: Identity): string {
    if id.group != "" then JoinPath(QosPath(id), "kubepods" + QosText(id) + GroupText(id) + ".slice") else QosPath(id)
  }

  function PodPath(id: Identity): string {
    if id.uid != "" then JoinPath(GroupPath(id), "kubepods" + QosText(id) + GroupText(id) + PodText(id) + ".slice")
    else GroupPath(id)
  }

  function CgroupPath(id: Identity): string {
    if id.cid != "" then JoinPath(PodPath(id), "cri-containerd-" + id.cid + ".scope") else PodPath(id)
  }

  // ----- slices

  /** The dash-separated parts of the slice of the QoS class, of the container group, and of
      the pod: the innermost slice's name is made of the last. */
  function QosParts(id: Identity): seq<string> {
    ["kubepods"]
    + if id.qosClass == BURSTABLE then ["burstable"]
      else if id.qosClass == BEST_EFFORT then ["besteffort"]
      else []
  }

  function GroupParts(id: Identity): seq<string> {
    QosParts(id) + if id.group != "" then [ReplaceAll(id.group, '-', '_')] else []
  }

  function Parts(id: Identity): seq<string> {
    GroupParts(id) + if id.uid != "" then ["pod" + ReplaceAll(id.uid, '-', '_')] else []
  }

  /** A slice's name: its parts joined by dashes. */
  function SliceName(parts: seq<string>): string {
    Join(parts, '-') + ".slice"
  }

  /** The chain of slices down to the one with these parts. By systemd's naming rule
      (systemd.slice(5)) each slice is its parent's name extended by one dash-free part. */
  function SliceChain(parts: seq<string>): seq<string> {
    if parts == [] then [] else SliceChain(parts[..|parts| - 1]) + [SliceName(parts)]
  }

  function Components(id: Identity): seq<string> {
    SliceChain(Parts(id)) + if id.cid != "" then ["cri-containerd-" + id.cid + ".scope"] else []
  }

  predicate SlashFree(id: Identity) {
    Free(id.group, '/') && Free(id.uid, '/') && Free(id.cid, '/')
  }

  lemma PartsAreDashFree(id: Identity)
    ensures AllFree(Parts(id), '-')
    ensures SlashFree(id) ==> AllFree(QosParts(id), '/') && AllFree(GroupParts(id), '/') && AllFree(Parts(id), '/')
    ensures SlashFree(id) ==>
              Free(ReplaceAll(id.group, '-', '_'), '/') && Free("pod" + ReplaceAll(id.uid, '-', '_'), '/')
  {
    assert Free("kubepods", '-') && Free("burstable", '-') && Free("besteffort", '-');
    assert Free("kubepods", '/') && Free("burstable", '/') && Free("besteffort", '/') && Free("pod", '/');
    var g, u := ReplaceAll(id.group, '-', '_'), ReplaceAll(id.uid, '-', '_');
    assert Free(g, '-') && Free(u, '-') && Free("pod" + u, '-');
    assert SlashFree(id) ==> Free(g, '/') && Free(u, '/') && Free("pod" + u, '/');
  }

  lemma {:induction false} ChainIsProper(parts: seq<string>)
    requires AllFree(parts, '/')
    ensures AllProper(SliceChain(parts)) && |SliceChain(parts)| == |parts|
    ensures Free(Join(parts, '-'), '/')
  {
    if parts != [] {
      ChainIsProper(parts[..|parts| - 1]);
      assert Free(".slice", '/');
      assert |SliceName(parts)| >= 6;
    }
  }

  /** One more part is one more slice. */
  lemma ChainExtends(parts: seq<string>, part: string)
    requires parts != []
    ensures SliceChain(parts + [part]) == SliceChain(parts) + [Join(parts, '-') + "-" + part + ".slice"]
  {
    assert (parts + [part])[..|parts|] == parts;
  }

  lemma JoinExtends(parts: seq<string>, part: string)
    requires parts != []
    ensures Join(parts + [part], '-') == Join(parts, '-') + "-" + part
  {
    assert (parts + [part])[..|parts|] == parts;
  }

  /** One branch of the builder: joining the next slice's name to a chain's path gives the
      longer chain's path, and the name's stem is the longer list of parts. */
  lemma BranchExtends(parts: seq<string>, part: string, dir: string, stem: string)
    requires parts != [] && AllFree(parts, '/') && Free(part, '/')
    requires dir == Rooted(SliceChain(parts)) && stem == Join(parts, '-')
    ensures JoinPath(dir, stem + ("-" + part) + ".slice") == Rooted(SliceChain(parts + [part]))
    ensures stem + ("-" + part) == Join(parts + [part], '-')
  {
    var name := stem + ("-" + part) + ".slice";
    assert stem + ("-" + part) == stem + "-" + part;
    JoinExtends(parts, part);
    ChainIsProper(parts);
    ChainIsProper(parts + [part]);
    ChainExtends(parts, part);
    assert SliceChain(parts + [part])[|parts|] == name;
    JoinPathAppends(SliceChain(parts), name);
  }

  lemma TopPath()
    ensures Rooted(SliceChain(["kubepods"])) == "/kubepods.slice"
  {
    var top := ["kubepods"];
    assert SliceChain(top[..0]) == [];
    assert SliceName(top) == "kubepods" + ".slice" == "kubepods.slice";
    assert SliceChain(top) == [SliceName(top)];
    var cs := ["", SliceName(top)];
    assert [""] + [SliceName(top)] == cs && cs[..1] == [""];
    assert Join(cs, '/') == Join(cs[..1], '/') + "/" + SliceName(top);
    assert Join(cs[..1], '/') == "";
  }

  lemma QosPathIsChain(id: Identity)
    ensures QosPath(id) == Rooted(SliceChain(QosParts(id)))
    ensures Join(QosParts(id), '-') == "kubepods" + QosText(id)
  {
    var top := ["kubepods"];
    TopPath();
    assert Free("kubepods", '/') && Free("burstable", '/') && Free("besteffort", '/');
    if id.qosClass == BURSTABLE {
      assert QosText(id) == "-" + "burstable";
      BranchExtends(top, "burstable", "/kubepods.slice", "kubepods");
    } else if id.qosClass == BEST_EFFORT {
      assert QosText(id) == "-" + "besteffort";
      BranchExtends(top, "besteffort", "/kubepods.slice", "kubepods");
    }
  }

  lemma GroupPathIsChain(id: Identity)
    requires SlashFree(id)
    ensures GroupPath(id) == Rooted(SliceChain(GroupParts(id)))
    ensures Join(GroupParts(id), '-') == "kubepods" + QosText(id) + GroupText(id)
  {
    QosPathIsChain(id);
    PartsAreDashFree(id);
    if id.group != "" {
      BranchExtends(QosParts(id), ReplaceAll(id.group, '-', '_'), QosPath(id), "kubepods" + QosText(id));
    }
  }

  /** The pod's own branch, below the group's slice. */
  lemma PodBranch(id: Identity, part: string)
    requires SlashFree(id) && id.uid != "" && part == "pod" + ReplaceAll(id.uid, '-', '_')
    requires GroupPath(id) == Rooted(SliceChain(GroupParts(id)))
    requires Join(GroupParts(id), '-') == "kubepods" + QosText(id) + GroupText(id)
    ensures PodPath(id) == Rooted(SliceChain(GroupParts(id) + [part]))
  {
    PartsAreDashFree(id);
    var stem := "kubepods" + QosText(id) + GroupText(id);
    BranchExtends(GroupParts(id), part, GroupPath(id), stem);
    assert PodText(id) == "-" + part;
  }

  lemma PodPathIsChain(id: Identity)
    requires SlashFree(id)
    ensures PodPath(id) == Rooted(SliceChain(Parts(id)))
  {
    GroupPathIsChain(id);
    if id.uid != "" {
      PodBranch(id, "pod" + ReplaceAll(id.uid, '-', '_'));
    } else {
      assert Parts(id) == GroupParts(id);
    }
  }

  /** The path built branch by branch is the path through the chain of slices, with the
      container's scope below it: the code follows systemd's naming rule. */
  lemma PathIsSliceChain(id: Identity)
    requires SlashFree(id)
    ensures CgroupPath(id) == Rooted(Components(id))
    ensures AllProper(Components(id))
  {
    PodPathIsChain(id);
    PartsAreDashFree(id);
    ChainIsProper(Parts(id));
    if id.cid != "" {
      ScopeIsProper(id.cid);
      JoinPathAppends(SliceChain(Parts(id)), "cri-containerd-" + id.cid + ".scope");
    } else {
      assert Components(id) == SliceChain(Parts(id));
    }
  }

  lemma ScopeIsProper(cid: string)
    requires Free(cid, '/')
    ensures Proper("cri-containerd-" + cid + ".scope")
  {
    assert Free("cri-containerd-", '/') && Free(".scope", '/');
    assert |"cri-containerd-" + cid + ".scope"| > 2;
  }

  // ----- the path in full

  /** Joining a proper name to the path of a chain writes it behind a slash: nothing is cleaned. */
  lemma JoiningAppendsText(cs: seq<string>, name: string)
    requires cs != [] && AllProper(cs) && Proper(name)
    ensures JoinPath(Rooted(cs), name) == Rooted(cs) + "/" + name
  {
    JoinPathAppends(cs, name);
    JoinLast([""] + cs, name, '/');
    assert [""] + cs + [name] == [""] + (cs + [name]);
  }

  /** The slice that is added for one more part. */
  lemma SliceAppendsText(parts: seq<string>, part: string, dir: string, stem: string)
    requires parts != [] && AllFree(parts, '/') && Free(part, '/')
    requires dir == Rooted(SliceChain(parts)) && stem == Join(parts, '-')
    ensures JoinPath(dir, stem + ("-" + part) + ".slice") == dir + "/" + (stem + "-" + part + ".slice")
  {
    var name := stem + ("-" + part) + ".slice";
    assert name == stem + "-" + part + ".slice";
    ChainIsProper(parts);
    assert Free(stem, '/') && Free(".slice", '/') && |name| > 2;
    JoiningAppendsText(SliceChain(parts), name);
  }

  lemma BurstableText()
    ensures "kubepods" + "-" + "burstable" + ".slice" == "kubepods-burstable.slice"
    ensures "/kubepods.slice" + "/" + "kubepods-burstable.slice" == "/kubepods.slice/kubepods-burstable.slice"
  {
  }

  lemma BestEffortText()
    ensures "kubepods" + "-" + "besteffort" + ".slice" == "kubepods-besteffort.slice"
    ensures "/kubepods.slice" + "/" + "kubepods-besteffort.slice" == "/kubepods.slice/kubepods-besteffort.slice"
  {
  }

  /** The slice of a class, from the text it contributes. */
  lemma ClassSlice(id: Identity, part: string)
    requires QosText(id) == "-" + part && Free(part, '/')
    ensures QosPath(id) == "/kubepods.slice" + "/" + ("kubepods" + "-" + part + ".slice")
  {
    TopPath();
    assert Free("kubepods", '/') && Join(["kubepods"], '-') == "kubepods";
    SliceAppendsText(["kubepods"], part, "/kubepods.slice", "kubepods");
  }

  /** The fixed path of a class, by the class's name in the API. */
  function ClassPath(qosClass: string): string {
    if qosClass == "Burstable" then "/kubepods.slice/kubepods-burstable.slice"
    else if qosClass == "BestEffort" then "/kubepods.slice/kubepods-besteffort.slice"
    else "/kubepods.slice"
  }

  /** And its stem. */
  function ClassStem(qosClass: string): string {
    if qosClass == "Burstable" then "kubepods-burstable"
    else if qosClass == "BestEffort" then "kubepods-besteffort"
    else "kubepods"
  }

  lemma QosPathInWords(id: Identity)
    ensures QosPath(id) == ClassPath(id.qosClass)
  {
    ClassNamesDiffer();
    assert Free("burstable", '/') && Free("besteffort", '/');
    if id.qosClass == BURSTABLE {
      BurstableText();
      ClassSlice(id, "burstable");
    } else if id.qosClass == BEST_EFFORT {
      BestEffortText();
      ClassSlice(id, "besteffort");
    }
  }

  lemma StemInWords(id: Identity)
    ensures "kubepods" + QosText(id) == ClassStem(id.qosClass)
  {
    ClassNamesDiffer();
  }

  /** The name of the group's slice, without its ending, below a class with this stem; also when
      there is no group. */
  function GroupStem(stem: string, group: string): string {
    stem + if group == "" then "" else "-" + ReplaceAll(group, '-', '_')
  }

  function GroupPiece(stem: string, group: string): string {
    if group == "" then "" else "/" + (GroupStem(stem, group) + ".slice")
  }

  function PodPiece(stem: string, uid: string): string {
    if uid == "" then "" else "/" + (stem + "-pod" + ReplaceAll(uid, '-', '_') + ".slice")
  }

  function ScopePiece(cid: string): string {
    if cid == "" then "" else "/" + ("cri-containerd-" + cid + ".scope")
  }

  lemma Regroup(a: string, b: string, c: string)
    ensures a + b + c == a + (b + c) && a + "" == a
  {
  }

  lemma GroupInWords(id: Identity, stem: string)
    requires SlashFree(id) && stem == "kubepods" + QosText(id)
    ensures GroupPath(id) == QosPath(id) + GroupPiece(stem, id.group)
    ensures "kubepods" + QosText(id) + GroupText(id) == GroupStem(stem, id.group)
  {
    if id.group != "" {
      var part := ReplaceAll(id.group, '-', '_');
      QosPathIsChain(id);
      PartsAreDashFree(id);
      SliceAppendsText(QosParts(id), part, QosPath(id), stem);
      Regroup(stem, "-", part);
      Regroup(QosPath(id), "/", GroupStem(stem, id.group) + ".slice");
    } else {
      Regroup(QosPath(id), "", "");
      Regroup(stem, "", "");
    }
  }

  lemma PodInWords(id: Identity, stem: string)
    requires SlashFree(id) && stem == "kubepods" + QosText(id) + GroupText(id)
    ensures PodPath(id) == GroupPath(id) + PodPiece(stem, id.uid)
  {
    Regroup(GroupPath(id), "", "");
    if id.uid != "" {
      PodSlice(id, stem, ReplaceAll(id.uid, '-', '_'));
    }
  }

  lemma PodSlice(id: Identity, stem: string, uid: string)
    requires SlashFree(id) && stem == "kubepods" + QosText(id) + GroupText(id)
    requires id.uid != "" && uid == ReplaceAll(id.uid, '-', '_')
    ensures PodPath(id) == GroupPath(id) + ("/" + (stem + "-pod" + uid + ".slice"))
  {
    var part := "pod" + uid;
    GroupPathIsChain(id);
    PartsAreDashFree(id);
    SliceAppendsText(GroupParts(id), part, GroupPath(id), stem);
    DashPod(stem, uid);
    Regroup(GroupPath(id), "/", stem + "-pod" + uid + ".slice");
  }

  lemma DashPod(stem: string, uid: string)
    ensures stem + "-" + ("pod" + uid) == stem + "-pod" + uid
    ensures stem + ("-" + ("pod" + uid)) == stem + ("-pod" + uid)
  {
    assert "-" + ("pod" + uid) == "-pod" + uid;
  }

  lemma ScopeInWords(id: Identity)
    requires SlashFree(id)
    ensures CgroupPath(id) == PodPath(id) + ScopePiece(id.cid)
  {
    Regroup(PodPath(id), "", "");
    if id.cid != "" {
      var scope := "cri-containerd-" + id.cid + ".scope";
      PodPathIsChain(id);
      PartsAreDashFree(id);
      ChainIsProper(Parts(id));
      ScopeIsProper(id.cid);
      JoiningAppendsText(SliceChain(Parts(id)), scope);
      Regroup(PodPath(id), "/", scope);
    }
  }

  /** The path below a class with this path and stem: the group's slice, the pod's and the
      container's scope, each if there is one. */
  function PathBelow(path: string, stem: string, id: Identity): string {
    path + GroupPiece(stem, id.group) + PodPiece(GroupStem(stem, id.group), id.uid) + ScopePiece(id.cid)
  }

  lemma PathIsBelow(id: Identity, path: string, stem: string)
    requires SlashFree(id) && path == QosPath(id) && stem == "kubepods" + QosText(id)
    ensures CgroupPath(id) == PathBelow(path, stem, id)
  {
    GroupInWords(id, stem);
    PodInWords(id, GroupStem(stem, id.group));
    ScopeInWords(id);
  }

  /** The path of a group, pod or container, written out below the fixed path of its QoS class. */
  lemma PathInWords(id: Identity)
    requires SlashFree(id)
    ensures CgroupPath(id)
         == if id.qosClass == "Burstable" then
              PathBelow("/kubepods.slice/kubepods-burstable.slice", "kubepods-burstable", id)
            else if id.qosClass == "BestEffort" then
              PathBelow("/kubepods.slice/kubepods-besteffort.slice", "kubepods-besteffort", id)
            else
              PathBelow("/kubepods.slice", "kubepods", id)
  {
    QosPathInWords(id);
    StemInWords(id);
    PathIsBelow(id, ClassPath(id.qosClass), ClassStem(id.qosClass));
  }

  lemma PathExtendsClass(id: Identity)
    requires SlashFree(id)
    ensures ClassPath(id.qosClass) <= CgroupPath(id)
    ensures id.group == id.uid == id.cid == "" ==> CgroupPath(id) == ClassPath(id.qosClass)
  {
    QosPathInWords(id);
    PathIsBelow(id, QosPath(id), "kubepods" + QosText(id));
  }

  /** So the groups, pods and containers of a class lie below the fixed path from which the class
      itself is loaded (lines 149-157), and that path is what the builder gives for the class. */
  lemma ClassPathsAreFixed(group: string, uid: string, cid: string)
    requires Free(group, '/') && Free(uid, '/') && Free(cid, '/')
    ensures "/kubepods.slice/kubepods-burstable.slice" <= CgroupPath(Identity("Burstable", group, uid, cid))
    ensures "/kubepods.slice/kubepods-besteffort.slice" <= CgroupPath(Identity("BestEffort", group, uid, cid))
    ensures CgroupPath(Identity("Burstable", "", "", "")) == "/kubepods.slice/kubepods-burstable.slice"
    ensures CgroupPath(Identity("BestEffort", "", "", "")) == "/kubepods.slice/kubepods-besteffort.slice"
  {
    ClassNamesDiffer();
    PathExtendsClass(Identity("Burstable", group, uid, cid));
    PathExtendsClass(Identity("BestEffort", group, uid, cid));
    PathExtendsClass(Identity("Burstable", "", "", ""));
    PathExtendsClass(Identity("BestEffort", "", "", ""));
  }

  // ----- reading a path back

  function ClassOf(part: string): Option<string> {
    if part == "burstable" then Some(BURSTABLE) else if part == "besteffort" then Some(BEST_EFFORT) else None
  }

  /** A part that can be a pod's: `pod` and then its uid. */
  predicate PodLike(part: string) {
    |part| > 3 && part[..3] == "pod"
  }

  /** A part below the QoS class is read as a pod if it can be one, and as a group otherwise. */
  function ReadLast(qosClass: string, part: string, cid: string): Identity {
    if PodLike(part) then Identity(qosClass, "", part[3..], cid) else Identity(qosClass, part, "", cid)
  }

  function ReadParts(parts: seq<string>, cid: string): Option<Identity>
    requires parts != []
  {
    var qosClass := if |parts| > 1 then ClassOf(parts[1]) else None;
    if |parts| == 1 then Some(Identity(GUARANTEED, "", "", cid))
    else if |parts| == 2 then
      Some(if qosClass.Some? then Identity(qosClass.value, "", "", cid) else ReadLast(GUARANTEED, parts[1], cid))
    else if |parts| == 3 then
      if qosClass.Some? then Some(ReadLast(qosClass.value, parts[2], cid))
      else if PodLike(parts[2]) then Some(Identity(GUARANTEED, parts[1], parts[2][3..], cid))
      else None
    else if |parts| == 4 && qosClass.Some? && PodLike(parts[3]) then
      Some(Identity(qosClass.value, parts[2], parts[3][3..], cid))
    else None
  }

  function SliceParts(slice: string): Option<seq<string>> {
    if |slice| < 6 then None else Some(Split(slice[..|slice| - 6], '-'))
  }

  function ScopeId(name: string): Option<string> {
    if |name| >= 21 && name[..15] == "cri-containerd-" then Some(name[15..|name| - 6]) else None
  }

  /** Read a path from its innermost slice and, if there is one, its scope. */
  function Decode(path: string): Option<Identity> {
    DecodePieces(Split(path, '/'))
  }

  function DecodePieces(cs: seq<string>): Option<Identity>
    requires cs != []
  {
    var cid := ScopeId(cs[|cs| - 1]);
    var scoped := cid.Some? && |cs| >= 2;
    var parts := SliceParts(if scoped then cs[|cs| - 2] else cs[|cs| - 1]);
    if parts.Some? && parts.value != [] then ReadParts(parts.value, if scoped then cid.value else "") else None
  }

  /** What a path can tell: dashes have become underscores, unknown classes count as
      guaranteed, a guaranteed group named like a QoS class is that class, and a group without
      a pod whose name could be a pod's part is that pod. */
  function Normal(id: Identity): Identity {
    var g, u := ReplaceAll(id.group, '-', '_'), ReplaceAll(id.uid, '-', '_');
    var known := id.qosClass == BURSTABLE || id.qosClass == BEST_EFFORT;
    if !known && ClassOf(g).Some? then Identity(ClassOf(g).value, "", u, id.cid)
    else
      var qosClass := if known then id.qosClass else GUARANTEED;
      if u == "" && PodLike(g) then Identity(qosClass, "", g[3..], id.cid) else Identity(qosClass, g, u, id.cid)
  }

  lemma ClassNamesDiffer()
    ensures BURSTABLE != BEST_EFFORT && BURSTABLE != GUARANTEED && BEST_EFFORT != GUARANTEED
    ensures "burstable" != "besteffort" && !PodLike("burstable") && !PodLike("besteffort") && !PodLike("")
  {
    assert |BURSTABLE| == 9 && |BEST_EFFORT| == 10 && |GUARANTEED| == 10 && BEST_EFFORT[0] != GUARANTEED[0];
    assert |"burstable"| == 9 && |"besteffort"| == 10;
    assert "burstable"[..3][0] == 'b' && "besteffort"[..3][0] == 'b' && "pod"[0] == 'p';
  }

  lemma PodPartReads(u: string)
    ensures ("pod" + u)[3..] == u && (PodLike("pod" + u) <==> u != "")
  {
    assert ("pod" + u)[..3] == "pod";
  }

  lemma ReadPartsIsNormal(id: Identity)
    ensures ReadParts(Parts(id), id.cid) == Some(Normal(id))
  {
    var g, u := ReplaceAll(id.group, '-', '_'), ReplaceAll(id.uid, '-', '_');
    PodPartReads(u);
    ClassNamesDiffer();
    assert (g == "" <==> id.group == "") && (u == "" <==> id.uid == "");
  }

  lemma SlicePartsOf(parts: seq<string>)
    requires parts != [] && AllFree(parts, '-')
    ensures SliceParts(SliceName(parts)) == Some(parts)
  {
    var slice := SliceName(parts);
    SplitOfJoin(parts, '-');
    assert slice[..|slice| - 6] == Join(parts, '-');
  }

  lemma ScopeIdOf(cid: string)
    ensures ScopeId("cri-containerd-" + cid + ".scope") == Some(cid)
  {
    var scope := "cri-containerd-" + cid + ".scope";
    assert |"cri-containerd-"| == 15 && |".scope"| == 6;
    assert scope[..15] == "cri-containerd-";
    assert scope[15..|scope| - 6] == cid;
  }

  lemma DecodeOfSlice(cs: seq<string>, parts: seq<string>)
    requires cs != [] && cs[|cs| - 1] == SliceName(parts)
    requires parts != [] && parts[0] == "kubepods" && AllFree(parts, '-')
    ensures DecodePieces(cs) == ReadParts(parts, "")
  {
    SlicePartsOf(parts);
    SliceIsNoScope(parts);
  }

  lemma DecodeOfScope(cs: seq<string>, parts: seq<string>, cid: string)
    requires |cs| >= 2 && cs[|cs| - 2] == SliceName(parts) && ScopeId(cs[|cs| - 1]) == Some(cid)
    requires parts != [] && AllFree(parts, '-')
    ensures DecodePieces(cs) == ReadParts(parts, cid)
  {
    SlicePartsOf(parts);
  }

  lemma DecodeOfRooted(cs: seq<string>)
    requires cs != [] && AllProper(cs)
    ensures Decode(Rooted(cs)) == DecodePieces([""] + cs)
  {
    assert AllFree(cs, '/');
    SplitRooted(cs);
  }

  lemma LastSlice(parts: seq<string>)
    requires parts != []
    ensures SliceChain(parts) != [] && SliceChain(parts)[|SliceChain(parts)| - 1] == SliceName(parts)
  {
  }

  /** Every path, of a container group, a pod or a container, decodes to its normal form. */
  lemma PathDecodes(id: Identity)
    requires SlashFree(id)
    ensures Decode(CgroupPath(id)) == Some(Normal(id))
  {
    PathIsSliceChain(id);
    PartsAreDashFree(id);
    ReadPartsIsNormal(id);
    LastSlice(Parts(id));
    var cs := Components(id);
    DecodeOfRooted(cs);
    if id.cid != "" {
      ScopeIdOf(id.cid);
      DecodeOfScope([""] + cs, Parts(id), id.cid);
    } else {
      DecodeOfSlice([""] + cs, Parts(id));
    }
  }

  lemma {:induction false} SliceIsNoScope(parts: seq<string>)
    requires parts != [] && parts[0] == "kubepods"
    ensures |Join(parts, '-')| >= 8 && Join(parts, '-')[0] == 'k'
    ensures ScopeId(SliceName(parts)) == None
  {
    if |parts| > 1 {
      SliceIsNoScope(parts[..|parts| - 1]);
    }
    assert SliceName(parts)[0] == 'k' && "cri-containerd-"[0] == 'c';
  }

  lemma NormalHasSameParts(id: Identity)
    ensures Parts(Normal(id)) == Parts(id) && Normal(id).cid == id.cid
  {
    var g, u := ReplaceAll(id.group, '-', '_'), ReplaceAll(id.uid, '-', '_');
    ClassNamesDiffer();
    assert (g == "" <==> id.group == "") && (u == "" <==> id.uid == "");
    assert ReplaceAll(g, '-', '_') == g && ReplaceAll(u, '-', '_') == u;
    if PodLike(g) {
      assert ReplaceAll(g[3..], '-', '_') == g[3..];
      assert "pod" + g[3..] == g;
    }
  }

  /** Two identities share a cgroup path exactly when they have the same slices and the same
      container, which is when they have the same normal form. */
  lemma PathsCoincide(a: Identity, b: Identity)
    requires SlashFree(a) && SlashFree(b)
    ensures CgroupPath(a) == CgroupPath(b) <==> Parts(a) == Parts(b) && a.cid == b.cid
    ensures CgroupPath(a) == CgroupPath(b) <==> Normal(a) == Normal(b)
  {
    PathDecodes(a);
    PathDecodes(b);
    PathIsSliceChain(a);
    PathIsSliceChain(b);
    NormalHasSameParts(a);
    NormalHasSameParts(b);
  }

  /** A container group called `pod` and then a pod's uid has the path of that pod, in every QoS
      class. */
  lemma GroupCollidesWithPod(qosClass: string, uid: string, cid: string)
    requires uid != "" && Free(uid, '/') && Free(cid, '/')
    ensures CgroupPath(Identity(qosClass, "pod" + uid, "", cid)) == CgroupPath(Identity(qosClass, "", uid, cid))
  {
    var a, b := Identity(qosClass, "pod" + uid, "", cid), Identity(qosClass, "", uid, cid);
    assert ReplaceAll("pod" + uid, '-', '_') == "pod" + ReplaceAll(uid, '-', '_');
    assert Parts(a) == Parts(b);
    assert Free("pod", '/');
    PathsCoincide(a, b);
  }

  lemma GroupIsClass(group: string, qosClass: string, uid: string, cid: string)
    requires ClassOf(group) == Some(qosClass) && Free(uid, '/') && Free(cid, '/')
    ensures CgroupPath(Identity(GUARANTEED, group, uid, cid)) == CgroupPath(Identity(qosClass, "", uid, cid))
  {
    var a, b := Identity(GUARANTEED, group, uid, cid), Identity(qosClass, "", uid, cid);
    ClassNamesDiffer();
    assert Free(group, '/') && ReplaceAll(group, '-', '_') == group;
    assert Parts(a) == Parts(b);
    PathsCoincide(a, b);
  }

  /** A guaranteed container group named like a QoS class has the paths of that class. */
  lemma GroupCollidesWithClass(uid: string, cid: string)
    requires Free(uid, '/') && Free(cid, '/')
    ensures CgroupPath(Identity("Guaranteed", "burstable", uid, cid))
         == CgroupPath(Identity("Burstable", "", uid, cid))
    ensures CgroupPath(Identity("Guaranteed", "besteffort", uid, cid))
         == CgroupPath(Identity("BestEffort", "", uid, cid))
  {
    ClassNamesDiffer();
    GroupIsClass("burstable", "Burstable", uid, cid);
    GroupIsClass("besteffort", "BestEffort", uid, cid);
  }

  /** The inverse of the builder on plain identities: dashes are put back. */
  function Restored(id: Identity): Identity {
    id.(group := ReplaceAll(id.group, '_', '-'), uid := ReplaceAll(id.uid, '_', '-'))
  }

  predicate Plain(id: Identity) {
    && id.qosClass in {BURSTABLE, BEST_EFFORT, GUARANTEED}
    && Free(id.group, '_') && Free(id.uid, '_')
    && (id.qosClass == GUARANTEED ==> ClassOf(id.group).None?)
    && (id.uid == "" ==> !PodLike(id.group))
  }

  lemma ReplaceRoundTrip(s: string)
    ensures ReplaceAll(ReplaceAll(s, '-', '_'), '_', '-') == s <==> Free(s, '_')
  {
    var r := ReplaceAll(ReplaceAll(s, '-', '_'), '_', '-');
    if !Free(s, '_') {
      var i :| 0 <= i < |s| && s[i] == '_';
      assert r[i] == '-';
    }
  }

  lemma ReplaceReaches(s: string, t: string)
    requires Free(t, '_') && Free(s, '_')
    ensures ReplaceAll(s, '-', '_') == t ==> s == t
  {
    if ReplaceAll(s, '-', '_') == t {
      forall i | 0 <= i < |s|
        ensures s[i] == t[i]
      {
        assert t[i] in t;
      }
    }
  }

  lemma ReplaceKeepsPodLike(s: string)
    ensures PodLike(ReplaceAll(s, '-', '_')) <==> PodLike(s)
  {
    var r := ReplaceAll(s, '-', '_');
    if |s| > 3 {
      assert PodLike(s) <==> s[0] == 'p' && s[1] == 'o' && s[2] == 'd' by {
        assert s[..3] == [s[0], s[1], s[2]];
      }
      assert PodLike(r) <==> r[0] == 'p' && r[1] == 'o' && r[2] == 'd' by {
        assert r[..3] == [r[0], r[1], r[2]];
      }
    }
  }

  lemma ReplaceKeepsClass(s: string)
    requires Free(s, '_')
    ensures ClassOf(ReplaceAll(s, '-', '_')) == ClassOf(s)
  {
    assert Free("burstable", '_') && Free("besteffort", '_');
    ReplaceReaches(s, "burstable");
    ReplaceReaches(s, "besteffort");
    assert ReplaceAll("burstable", '-', '_') == "burstable" && ReplaceAll("besteffort", '-', '_') == "besteffort";
  }

  lemma RestoredNormal(id: Identity)
    ensures Restored(Normal(id)) == id <==> Plain(id)
  {
    ReplaceRoundTrip(id.group);
    ReplaceRoundTrip(id.uid);
    ReplaceKeepsPodLike(id.group);
    ClassNamesDiffer();
    if Free(id.group, '_') {
      ReplaceKeepsClass(id.group);
    }
    assert ReplaceAll(id.uid, '-', '_') == "" <==> id.uid == "";
  }

  /** The path determines what it was built from exactly for plain identities. */
  lemma PathRoundTrip(id: Identity)
    requires SlashFree(id)
    ensures Decode(CgroupPath(id)).Some?
    ensures Restored(Decode(CgroupPath(id)).value) == id <==> Plain(id)
  {
    PathDecodes(id);
    RestoredNormal(id);
  }
}
