/** The naming logic of `GuiComponent`, the desktop window of a workspace
    component: its display name and the short name derived from its class
    name. */
module GuiComponents {
  import opened Optional

  /** The class-name suffix that `getSimpleName` strips. */
  const Suffix: string := "Component"

  /** `pat` occurs in `s` starting at index `i`. */
  predicate OccursAt(s: string, pat: string, i: nat)
  {
    i + |pat| <= |s| && s[i..i + |pat|] == pat
  }

  /** `i` is the first index at which `pat` occurs in `s`. */
  predicate FirstOccurrence(s: string, pat: string, i: nat)
  {
    OccursAt(s, pat, i) && forall j: nat :: j < i ==> !OccursAt(s, pat, j)
  }

  /** `String.endsWith`. */
  predicate EndsWith(s: string, suffix: string)
  {
    |suffix| <= |s| && s[|s| - |suffix|..] == suffix
  }

  lemma OccursShifted(s: string, pat: string, j: nat)
    requires |s| > 0
    ensures OccursAt(s[1..], pat, j) <==> OccursAt(s, pat, j + 1)
  {
    if j + 1 + |pat| <= |s| {
      assert s[1..][j..j + |pat|] == s[j + 1..j + 1 + |pat|];
    }
  }

  /** `String.indexOf`: the first index at which `pat` occurs in `s`, or
      none when it does not occur. */
  function IndexOf(s: string, pat: string): (r: Option<nat>)
    ensures r.Some? ==> FirstOccurrence(s, pat, r.value)
    ensures r.None? ==> forall j: nat :: !OccursAt(s, pat, j)
  {
    if |s| < |pat| then None
    else if s[..|pat|] == pat then Some(0)
    else
      assert !OccursAt(s, pat, 0);
      match IndexOf(s[1..], pat)
      case None =>
        assert forall j: nat :: !OccursAt(s, pat, j) by {
          forall j: nat ensures !OccursAt(s, pat, j) {
            if j > 0 {
              OccursShifted(s, pat, j - 1);
            }
          }
        }
        None
      case Some(i) =>
        OccursShifted(s, pat, i);
        assert forall j: nat :: j < i + 1 ==> !OccursAt(s, pat, j) by {
          forall j: nat | j < i + 1 ensures !OccursAt(s, pat, j) {
            if j > 0 {
              OccursShifted(s, pat, j - 1);
            }
          }
        }
        Some(i + 1)
  }

  /** `String.replaceFirst(pat, "")` for a pattern with no regular-expression
      metacharacters: `s` without the first occurrence of `pat`. */
  function RemoveFirst(s: string, pat: string): (r: string)
  {
    match IndexOf(s, pat)
    case None => s
    case Some(i) => s[..i] + s[i + |pat|..]
  }

  /** A workspace component, as far as its window needs it. */
  datatype WorkspaceComponent = WorkspaceComponent(name: string)

  /** A window: the simple name of its class and the workspace component it
      shows, if any. */
  datatype GuiComponent = GuiComponent(className: string, workspaceComponent: Option<WorkspaceComponent>)
  {
    /** `getName`: the text "null" without a workspace component, otherwise
        that component's name. */
    function GetName(): (name: string)
      ensures workspaceComponent.None? ==> name == "null"
      ensures workspaceComponent.Some? ==> name == workspaceComponent.value.name
    {
      if workspaceComponent.None? then "null" else workspaceComponent.value.name
    }

    /** `getSimpleName`: a class name not ending in "Component" is returned
        unchanged; one that does loses the FIRST occurrence of "Component",
        which need not be the suffix, and so is nine characters shorter. */
    function GetSimpleName(): (simple: string)
      ensures !EndsWith(className, Suffix) ==> simple == className
      ensures EndsWith(className, Suffix) ==>
        && |simple| == |className| - |Suffix|
        && exists i: nat :: FirstOccurrence(className, Suffix, i) && simple == className[..i] + className[i + |Suffix|..]
    {
      if EndsWith(className, Suffix) then
        assert OccursAt(className, Suffix, |className| - |Suffix|);
        RemoveFirst(className, Suffix)
      else className
    }
  }

  /** There is only one first occurrence. */
  lemma FirstOccurrenceUnique(s: string, pat: string, i: nat, k: nat)
    requires FirstOccurrence(s, pat, i) && FirstOccurrence(s, pat, k)
    ensures i == k
  {
  }

  /** A pattern cannot start where its first character is missing. */
  lemma NoOccurrenceWithoutHead(s: string, pat: string, n: nat)
    requires pat != [] && n <= |s| && pat[0] !in s[..n]
    ensures forall j: nat :: j < n ==> !OccursAt(s, pat, j)
  {
    forall j: nat | j < n ensures !OccursAt(s, pat, j) {
      assert s[j] == s[..n][j] != pat[0];
      if j + |pat| <= |s| {
        assert s[j..j + |pat|][0] == s[j];
      }
    }
  }

  /** When "Component" occurs only as the suffix, the simple name is the
      class name without it. */
  lemma SimpleNameStripsSoleSuffix(g: GuiComponent)
    requires EndsWith(g.className, Suffix)
    requires forall j: nat :: j < |g.className| - |Suffix| ==> !OccursAt(g.className, Suffix, j)
    ensures g.GetSimpleName() == g.className[..|g.className| - |Suffix|]
  {
    var n := |g.className| - |Suffix|;
    assert FirstOccurrence(g.className, Suffix, n);
    var i: nat :| FirstOccurrence(g.className, Suffix, i)
      && g.GetSimpleName() == g.className[..i] + g.className[i + |Suffix|..];
    FirstOccurrenceUnique(g.className, Suffix, i, n);
  }

  /** The example of the documentation: "NetworkComponent" becomes "Network". */
  lemma NetworkComponentIsNetwork()
    ensures GuiComponent("NetworkComponent", None).GetSimpleName() == "Network"
  {
    var s := "NetworkComponent";
    assert s[..7] == "Network" && s[7..] == Suffix;
    NoOccurrenceWithoutHead(s, Suffix, 7);
    SimpleNameStripsSoleSuffix(GuiComponent(s, None));
  }

  /** With two occurrences the leading one goes: "ComponentXComponent"
      becomes "XComponent", not "ComponentX". */
  lemma LeadingOccurrenceRemoved()
    ensures GuiComponent("ComponentXComponent", None).GetSimpleName() == "XComponent"
  {
    var s := "ComponentXComponent";
    var g := GuiComponent(s, None);
    assert s[..9] == Suffix && s[10..] == Suffix;
    assert FirstOccurrence(s, Suffix, 0);
    var i: nat :| FirstOccurrence(s, Suffix, i) && g.GetSimpleName() == s[..i] + s[i + |Suffix|..];
    FirstOccurrenceUnique(s, Suffix, i, 0);
    assert s[9..] == "XComponent";
  }
}
