/**
 * The organisation map (`MapView`): `createHierarchyData` groups the leads of
 * one company by department into a three-level tree — the company, one node
 * per department, one leaf per lead — and `levelToColor` picks a node's colour
 * from its level.
 */
module MapView {
  import opened Wrappers
  import opened JsString
  import LeadStore

  /** The fields of a company lead the tree reads; any of them may be absent. */
  datatype CompanyLead = CompanyLead(firstName: Option<string>, lastName: Option<string>, title: Option<string>,
                                     department: Option<string>, seniorityLevel: Option<string>)

  /** A tree node: leaves carry no `children` at all, the company and department nodes a list. */
  datatype Node =
    | Leaf(name: string, title: string, level: int, department: string)
    | Branch(name: string, title: string, level: int, department: string, children: seq<Node>)

  /** `levels`, from the top of the organisation down. */
  const Levels: seq<string> := ["C-Level", "VP", "Director", "Manager", "Individual Contributor"]

  /** `xs.indexOf(x)`: the first position of `x`, or -1. */
  function IndexIn(xs: seq<string>, x: string): (r: int)
    ensures -1 <= r < |xs|
    ensures r == -1 <==> x !in xs
    ensures r >= 0 ==> xs[r] == x && x !in xs[..r]
  {
    if xs == [] then -1
    else if xs[0] == x then 0
    else
      var r := IndexIn(xs[1..], x);
      assert r >= 0 ==> xs[..r + 1] == [xs[0]] + xs[1..][..r];
      if r == -1 then -1 else r + 1
  }

  /** `l.department || 'Other'`. */
  function DepartmentKey(l: CompanyLead): string {
    if Truthy(l.department) then l.department.value else "Other"
  }

  /** `levels.indexOf(l.seniorityLevel || 'Individual Contributor') + 2`. */
  function LeafLevel(l: CompanyLead): int {
    IndexIn(Levels, if Truthy(l.seniorityLevel) then l.seniorityLevel.value else "Individual Contributor") + 2
  }

  /** How a template literal shows an absent field. */
  const Undefined: string := "undefined"

  /** How a template literal shows a field: the string itself, or `undefined` when it is absent. */
  function Shown(field: Option<string>): string {
    match field
    case Some(s) => s
    case None => Undefined
  }

  /** The leaf of one lead. */
  function LeafOf(l: CompanyLead): Node {
    Leaf(Shown(l.firstName) + " " + Shown(l.lastName), if Truthy(l.title) then l.title.value else "Unknown",
         LeafLevel(l), DepartmentKey(l))
  }

  /**
   * The leaf level is the seniority's position plus two, so it lies in [1, 6]:
   * an absent or empty seniority counts as an individual contributor (6), an
   * unrecognised one gives 1, and each recognised one its own level.
   */
  lemma LeafLevelSpec(l: CompanyLead)
    ensures 1 <= LeafLevel(l) <= 6
    ensures !Truthy(l.seniorityLevel) ==> LeafLevel(l) == 6
    ensures Truthy(l.seniorityLevel) && l.seniorityLevel.value !in Levels ==> LeafLevel(l) == 1
    ensures forall k :: 0 <= k < |Levels| && l.seniorityLevel == Some(Levels[k]) ==> LeafLevel(l) == k + 2
  {
    var s := if Truthy(l.seniorityLevel) then l.seniorityLevel.value else "Individual Contributor";
    var r := IndexIn(Levels, s);
    assert Levels[4] == "Individual Contributor";
  }

  // ---------------------------------------------------------------------------
  // The tree as a specification

  /** The department keys in the order they are first met (the dictionary's insertion order). */
  function Departments(leads: seq<CompanyLead>): seq<string> {
    if leads == [] then []
    else
      var before := Departments(leads[..|leads| - 1]);
      var d := DepartmentKey(leads[|leads| - 1]);
      if d in before then before else before + [d]
  }

  /** The leads pushed into one department's list, in their order. */
  function Members(leads: seq<CompanyLead>, dept: string): seq<CompanyLead> {
    if leads == [] then []
    else Members(leads[..|leads| - 1], dept) + (if DepartmentKey(leads[|leads| - 1]) == dept then [leads[|leads| - 1]] else [])
  }

  /** One leaf per lead, in order. */
  function Leaves(leads: seq<CompanyLead>): seq<Node> {
    seq(|leads|, k requires 0 <= k < |leads| => LeafOf(leads[k]))
  }

  /** A department node with its leads as leaves. */
  function DepartmentNode(dept: string, members: seq<CompanyLead>): Node {
    Branch(dept, "Department", 1, dept, Leaves(members))
  }

  /** The department nodes for the keys, in order. */
  function DepartmentNodes(keys: seq<string>, leads: seq<CompanyLead>): seq<Node> {
    seq(|keys|, j requires 0 <= j < |keys| => DepartmentNode(keys[j], Members(leads, keys[j])))
  }

  /** The tree `createHierarchyData` returns for a lead of `company` and the company's leads. */
  function Tree(company: string, leads: seq<CompanyLead>): Node {
    Branch(company, "Company", 0, "Company", DepartmentNodes(Departments(leads), leads))
  }

  // ---------------------------------------------------------------------------
  // createHierarchyData

  /**
   * `createHierarchyData`: the leads are grouped into a dictionary of
   * department lists, then the department nodes are built in the order the
   * keys were added and hung under the company node.
   */
  method CreateHierarchyData(company: string, allLeads: seq<CompanyLead>) returns (root: Node)
    ensures root == Tree(company, allLeads)
  {
    var departments, keys := GroupByDepartment(allLeads);
    var children := BuildDepartmentNodes(keys, departments, allLeads);
    root := Branch(company, "Company", 0, "Company", children);
  }

  /**
   * The first `forEach`: each lead is pushed onto its department's list, a
   * new key starting an empty one; the keys come out in insertion order.
   */
  method GroupByDepartment(allLeads: seq<CompanyLead>)
    returns (departments: map<string, seq<CompanyLead>>, keys: seq<string>)
    ensures keys == Departments(allLeads)
    ensures forall d :: d in departments <==> d in keys
    ensures forall d :: d in departments ==> departments[d] == Members(allLeads, d)
  {
    departments := map[];
    keys := [];
    var i := 0;
    while i < |allLeads|
      invariant 0 <= i <= |allLeads|
      invariant keys == Departments(allLeads[..i])
      invariant forall d :: d in departments <==> d in keys
      invariant forall d :: d in departments ==> departments[d] == Members(allLeads[..i], d)
    {
      var l := allLeads[i];
      var dept := DepartmentKey(l);
      assert allLeads[..i + 1][..i] == allLeads[..i];
      if dept !in departments {
        MembersOfAbsent(allLeads[..i], dept);
        departments := departments[dept := []];
        keys := keys + [dept];
      }
      departments := departments[dept := departments[dept] + [l]];
      i := i + 1;
    }
    assert allLeads[..i] == allLeads;
  }

  /** The second `forEach`: one department node per key, in order. */
  method BuildDepartmentNodes(keys: seq<string>, departments: map<string, seq<CompanyLead>>,
                              ghost allLeads: seq<CompanyLead>)
    returns (children: seq<Node>)
    requires forall d :: d in keys ==> d in departments && departments[d] == Members(allLeads, d)
    ensures children == DepartmentNodes(keys, allLeads)
  {
    children := [];
    var j := 0;
    while j < |keys|
      invariant 0 <= j <= |keys|
      invariant children == DepartmentNodes(keys[..j], allLeads)
    {
      var dept := keys[j];
      var leaves := BuildLeaves(departments[dept], LeafOf);
      assert leaves == Leaves(departments[dept]);
      children := children + [Branch(dept, "Department", 1, dept, leaves)];
      j := j + 1;
    }
    assert keys[..j] == keys;
  }

  /**
   * The inner `forEach`: one node pushed per lead of the department, made by
   * `leafOf` (the leaf builder, passed in so that the loop does not depend on
   * how a leaf is spelled out).
   */
  method BuildLeaves(members: seq<CompanyLead>, leafOf: CompanyLead -> Node) returns (leaves: seq<Node>)
    ensures |leaves| == |members|
    ensures forall m :: 0 <= m < |members| ==> leaves[m] == leafOf(members[m])
  {
    leaves := [];
    var k := 0;
    while k < |members|
      invariant 0 <= k <= |members|
      invariant |leaves| == k
      invariant forall m :: 0 <= m < k ==> leaves[m] == leafOf(members[m])
    {
      leaves := leaves + [leafOf(members[k])];
      k := k + 1;
    }
  }

  /** A department no lead belongs to has no members. */
  lemma {:induction false} MembersOfAbsent(leads: seq<CompanyLead>, dept: string)
    requires dept !in Departments(leads)
    ensures Members(leads, dept) == []
  {
    if leads != [] {
      MembersOfAbsent(leads[..|leads| - 1], dept);
    }
  }

  // ---------------------------------------------------------------------------
  // Properties of the tree

  /**
   * The departments are listed once each, and a key is listed exactly when
   * some lead belongs to it.
   */
  lemma {:induction false} DepartmentsSpec(leads: seq<CompanyLead>)
    ensures Unique(Departments(leads))
    ensures forall d :: d in Departments(leads) <==> exists k :: 0 <= k < |leads| && DepartmentKey(leads[k]) == d
  {
    if leads != [] {
      var front := leads[..|leads| - 1];
      DepartmentsSpec(front);
      assert forall k :: 0 <= k < |front| ==> front[k] == leads[k];
    }
  }

  /**
   * Each department holds the leads of that department and no others, each as
   * often as it occurs among the company's leads.
   */
  lemma {:induction false} MembersSpec(leads: seq<CompanyLead>, dept: string)
    ensures forall k :: 0 <= k < |Members(leads, dept)| ==> DepartmentKey(Members(leads, dept)[k]) == dept
    ensures forall l :: multiset(Members(leads, dept))[l] == if DepartmentKey(l) == dept then multiset(leads)[l] else 0
  {
    if leads != [] {
      var front := leads[..|leads| - 1];
      MembersSpec(front, dept);
      assert leads == front + [leads[|leads| - 1]];
    }
  }

  /** Keys listed once each. */
  predicate Unique(keys: seq<string>) {
    forall i, j :: 0 <= i < j < |keys| ==> keys[i] != keys[j]
  }

  /** The number of leaves under a list of department nodes. */
  function LeafCount(nodes: seq<Node>): nat {
    if nodes == [] then 0
    else (if nodes[0].Branch? then |nodes[0].children| else 0) + LeafCount(nodes[1..])
  }

  /** Adding one lead adds one leaf under its department, when its department is among the keys. */
  lemma {:induction false} LeafCountSnoc(keys: seq<string>, leads: seq<CompanyLead>, l: CompanyLead)
    requires Unique(keys)
    ensures LeafCount(DepartmentNodes(keys, leads + [l]))
            == LeafCount(DepartmentNodes(keys, leads)) + (if DepartmentKey(l) in keys then 1 else 0)
  {
    if keys != [] {
      LeafCountSnoc(keys[1..], leads, l);
      assert (leads + [l])[..|leads|] == leads;
      assert DepartmentNodes(keys, leads + [l])[1..] == DepartmentNodes(keys[1..], leads + [l]);
      assert DepartmentNodes(keys, leads)[1..] == DepartmentNodes(keys[1..], leads);
      assert keys[0] == DepartmentKey(l) ==> DepartmentKey(l) !in keys[1..];
    }
  }

  /** A list of department nodes holds as many leaves as its keys have members. */
  lemma {:induction false} LeafCountCovers(keys: seq<string>, leads: seq<CompanyLead>)
    requires Unique(keys)
    requires forall k :: 0 <= k < |leads| ==> DepartmentKey(leads[k]) in keys
    ensures LeafCount(DepartmentNodes(keys, leads)) == |leads|
  {
    if leads == [] {
      NoLeaves(keys);
    } else {
      var front := leads[..|leads| - 1];
      LeafCountCovers(keys, front);
      LeafCountSnoc(keys, front, leads[|leads| - 1]);
      assert front + [leads[|leads| - 1]] == leads;
    }
  }

  lemma {:induction false} NoLeaves(keys: seq<string>)
    ensures LeafCount(DepartmentNodes(keys, [])) == 0
  {
    if keys != [] {
      NoLeaves(keys[1..]);
      assert DepartmentNodes(keys, [])[1..] == DepartmentNodes(keys[1..], []);
    }
  }

  /**
   * The shape of the tree: the company at level 0, one level-1 node per
   * distinct department, and as many leaves as leads; each lead is a leaf of
   * its own department's node, as often as it occurs.
   */
  lemma TreeSpec(company: string, leads: seq<CompanyLead>)
    ensures var root := Tree(company, leads);
            && root == Branch(company, "Company", 0, "Company", root.children)
            && |root.children| == |Departments(leads)|
            && (forall j :: 0 <= j < |root.children| ==>
                  root.children[j].Branch? && root.children[j].level == 1 &&
                  root.children[j].name == Departments(leads)[j])
            && LeafCount(root.children) == |leads|
    ensures forall k :: 0 <= k < |leads| ==> DepartmentKey(leads[k]) in Departments(leads)
  {
    DepartmentsSpec(leads);
    LeafCountCovers(Departments(leads), leads);
  }

  // ---------------------------------------------------------------------------
  // levelToColor

  /** `colors`, one per level, the last shared by every deeper level. */
  const Colors: seq<string> := ["#9333EA", "#7C3AED", "#6366F1", "#3B82F6", "#06B6D4", "#10B981"]

  /** `colors[Math.min(level, colors.length - 1)]`: `undefined` for a negative level. */
  function LevelToColor(level: int): Option<string> {
    var index := if level < |Colors| - 1 then level else |Colors| - 1;
    if 0 <= index then Some(Colors[index]) else None
  }

  /** Every level of the tree has a colour: the clamped index stays in bounds. */
  lemma TreeColoured(company: string, leads: seq<CompanyLead>)
    ensures LevelToColor(Tree(company, leads).level) == Some(Colors[0])
    ensures forall j :: 0 <= j < |Tree(company, leads).children| ==>
              LevelToColor(Tree(company, leads).children[j].level) == Some(Colors[1])
    ensures forall k :: 0 <= k < |leads| ==> LevelToColor(LeafOf(leads[k]).level).Some?
    ensures forall k :: 0 <= k < |leads| && !Truthy(leads[k].seniorityLevel) ==>
              LevelToColor(LeafOf(leads[k]).level) == Some(Colors[5])
  {
    forall k | 0 <= k < |leads| ensures 1 <= LeafOf(leads[k]).level <= 6
      && (!Truthy(leads[k].seniorityLevel) ==> LeafOf(leads[k]).level == 6) {
      LeafLevelSpec(leads[k]);
    }
  }

  /** A stored lead as the tree sees it: it has a title but no name parts, department or seniority. */
  function FromStoreLead(l: LeadStore.Lead): CompanyLead {
    CompanyLead(None, None, l.title, None, None)
  }

  /** Leads that all fall under `Other` make a single department. */
  lemma {:induction false} OnlyOther(leads: seq<CompanyLead>)
    requires forall k :: 0 <= k < |leads| ==> DepartmentKey(leads[k]) == "Other"
    ensures Departments(leads) == if leads == [] then [] else ["Other"]
  {
    if leads != [] {
      OnlyOther(leads[..|leads| - 1]);
    }
  }

  /** A stored lead's leaf: both name parts show as `undefined`, under `Other`, at the deepest level. */
  lemma StoreLeaf(l: LeadStore.Lead)
    ensures LeafOf(FromStoreLead(l)).name == Undefined + " " + Undefined
    ensures LeafOf(FromStoreLead(l)).level == 6
    ensures LeafOf(FromStoreLead(l)).department == "Other"
  {
    LeafLevelSpec(FromStoreLead(l));
  }

  /**
   * The company leads the dashboard passes are stored leads, so all of them
   * fall under one `Other` department.
   */
  lemma StoreLeadsOneDepartment(stored: seq<LeadStore.Lead>)
    ensures Departments(seq(|stored|, k requires 0 <= k < |stored| => FromStoreLead(stored[k])))
            == if stored == [] then [] else ["Other"]
  {
    OnlyOther(seq(|stored|, k requires 0 <= k < |stored| => FromStoreLead(stored[k])));
  }
}
