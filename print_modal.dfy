/**
 * The print dialog: the project-number prefixes it offers, its defaults,
 * and the options it hands to the print preview.
 */
module PrintModalComponent {
  import opened Base
  import opened Seqs
  import opened ApiData
  import Js
  import Text
  import PrintPreviewComponent

  /** Some fetched project's code starts with `<prefix>-`. */
  predicate Offered(projects: seq<ProjectJson>, prefix: string)
  {
    exists p :: p in projects && Text.LeadingNumber(p.projectCode) == Some(prefix)
  }

  /**
   * `loadData`: the digit groups of the codes matching `^(\d+)-` collected
   * into a `Set` in the order met, then `Array.from(prefixes).sort()`.
   */
  method Prefixes(projects: seq<ProjectJson>) returns (r: seq<string>)
    ensures NoDuplicates(r) && SortedBy(r, Text.CodeUnitLe)
    ensures forall x :: x in r <==> Offered(projects, x)
  {
    var found: seq<string> := [];
    var i := 0;
    while i < |projects|
      invariant 0 <= i <= |projects|
      invariant NoDuplicates(found)
      invariant forall x :: x in found <==> Offered(projects[..i], x)
    {
      var m := Text.LeadingNumber(projects[i].projectCode);
      assert projects[..i + 1] == projects[..i] + [projects[i]];
      if m.Some? && m.value !in found {
        found := found + [m.value];
      }
      OfferedStep(projects, i, found);
      i := i + 1;
    }
    assert projects[..i] == projects;
    Text.StrLeTotal();
    SortBySorted(found, Text.CodeUnitLe);
    r := SortBy(found, Text.CodeUnitLe);
    NoDuplicatesPermutation(found, r);
    forall x ensures x in r <==> x in found {
      assert x in r <==> x in multiset(r);
    }
  }

  lemma OfferedStep(projects: seq<ProjectJson>, i: nat, found: seq<string>)
    requires i < |projects|
    requires var m := Text.LeadingNumber(projects[i].projectCode);
             forall x :: x in found <==> Offered(projects[..i], x) || m == Some(x)
    ensures forall x :: x in found <==> Offered(projects[..i + 1], x)
  {
    assert projects[..i + 1] == projects[..i] + [projects[i]];
    forall x ensures Offered(projects[..i + 1], x) <==> Offered(projects[..i], x) || Text.LeadingNumber(projects[i].projectCode) == Some(x) {
      if Offered(projects[..i + 1], x) {
        var p :| p in projects[..i + 1] && Text.LeadingNumber(p.projectCode) == Some(x);
        if p != projects[i] { assert p in projects[..i]; }
      }
      if Text.LeadingNumber(projects[i].projectCode) == Some(x) {
        assert projects[i] in projects[..i + 1];
      }
    }
  }

  /** The dialog's choices: `selectedPrefix`, `selectedUser` and `includeGeneralExpense`. */
  datatype Choices = Choices(prefix: string, user: string, includeGeneralExpense: bool)

  /** As the dialog opens: no prefix, every user, general expense left out. */
  const InitialChoices: Choices := Choices("", "all", false)

  /** The signed-in user: their id and whether they are an admin. */
  datatype Viewer = Viewer(id: int, isAdmin: bool)

  /**
   * `handlePrint`: refused while no prefix is chosen; otherwise the options
   * name the chosen user for an admin and the signed-in user for anyone else.
   */
  function HandlePrint(c: Choices, viewer: Viewer): (o: Option<PrintPreviewComponent.PrintOptions>)
    ensures o.None? <==> c.prefix == ""
    ensures o.Some? ==> o.value.prefix == c.prefix && o.value.includeGeneralExpense == c.includeGeneralExpense
    ensures o.Some? && viewer.isAdmin ==> o.value.userId == Js.Str(c.user)
    ensures o.Some? && !viewer.isAdmin ==> o.value.userId == Js.Num(viewer.id)
  {
    if c.prefix == "" then None
    else Some(PrintPreviewComponent.PrintOptions(c.prefix, if viewer.isAdmin then Js.Str(c.user) else Js.Num(viewer.id), c.includeGeneralExpense))
  }

  /** Printing is refused until a prefix is chosen. */
  lemma InitialRefused(viewer: Viewer)
    ensures HandlePrint(InitialChoices, viewer).None?
  {
  }

  /**
   * Whatever a user who is not an admin picks, the preview prints only their
   * own projects; with the initial choices of everything but the prefix,
   * an admin's preview prints every user's projects but no general expense.
   */
  lemma PreviewScope(c: Choices, viewer: Viewer, p: ProjectJson)
    requires c.prefix != ""
    ensures var o := HandlePrint(c, viewer).value;
            !viewer.isAdmin && PrintPreviewComponent.Printed(o, p) ==> p.userId == Some(viewer.id)
    ensures var o := HandlePrint(c.(user := "all", includeGeneralExpense := false), viewer).value;
            viewer.isAdmin ==>
              (PrintPreviewComponent.Printed(o, p) <==>
                 PrintPreviewComponent.HasPrefix(c.prefix, p) && p.status != Some("general_expense"))
  {
  }
}
