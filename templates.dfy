/**
 * Deal templates: the list of saved templates with its update-by-id, append,
 * delete and duplicate operations, the two default templates seeded into an
 * empty list, the template form, the comma-separated shortcut field, and the
 * Ctrl+key lookup that applies the first matching template.
 */
module Templates {

  import opened Wrappers
  import opened Seqs
  import opened Strings

  /** A template; salesperson and finance manager ids are select values, '' for none. */
  datatype Template = Template(
    id: string,
    name: string,
    description: string,
    bank: string,
    salespersonId: string,
    financeManagerId: string,
    fundingNotes: string,
    shortcuts: seq<string>,
    isDefault: bool)

  /** The cleared form; its absent `id` and `isDefault` are '' and false. */
  const EmptyForm: Template := Template("", "", "", "", "", "", "", [], false)

  /** The two templates an empty list is seeded with. */
  const Defaults: seq<Template> := [
    Template("default-1", "Standard Deal", "Standard deal template for most customers", "Chase Auto",
             "", "", "Standard funding process", ["Ctrl+1"], true),
    Template("default-2", "High-Value Deal", "Template for high-value deals requiring special attention",
             "Wells Fargo", "", "", "High-value deal - expedite processing", ["Ctrl+2"], true)
  ]

  /** `Date.now().toString()`, with the clock passed in: all digits, so never a default's id. */
  function ClockId(clock: nat): (r: string)
    ensures forall i | 0 <= i < |Defaults| :: r != Defaults[i].id
  {
    NatToString(clock)
  }

  // ===================================================================
  // List operations
  // ===================================================================

  /** Edit mode: `prev.map(t => t.id === id ? {...form, id: t.id} : t)`. */
  function ReplaceById(ts: seq<Template>, id: string, form: Template): seq<Template> {
    seq(|ts|, i requires 0 <= i < |ts| => if ts[i].id == id then form.(id := ts[i].id) else ts[i])
  }

  /**
   * Saving in edit mode replaces exactly the templates with that id by the
   * form, keeping the id; length, order and the other templates are unchanged.
   */
  lemma ReplaceByIdSpec(ts: seq<Template>, id: string, form: Template)
    ensures |ReplaceById(ts, id, form)| == |ts|
    ensures forall i | 0 <= i < |ts| ::
              (ts[i].id == id ==> ReplaceById(ts, id, form)[i] == form.(id := id))
              && (ts[i].id != id ==> ReplaceById(ts, id, form)[i] == ts[i])
    ensures (forall i | 0 <= i < |ts| :: ts[i].id != id) ==> ReplaceById(ts, id, form) == ts
  {
  }

  /** Create mode: the form as a new, non-default template with a clock id. */
  function Created(form: Template, clock: nat): (t: Template)
    ensures t.id == ClockId(clock) && !t.isDefault
    ensures t.(id := form.id, isDefault := form.isDefault) == form
  {
    form.(id := ClockId(clock), isDefault := false)
  }

  /** `handleDuplicateTemplate`: a non-default copy named `<name> (Copy)` with a clock id. */
  function Duplicate(t: Template, clock: nat): (d: Template)
    ensures d.id == ClockId(clock) && !d.isDefault && d.name == t.name + " (Copy)"
    ensures d.(id := t.id, name := t.name, isDefault := t.isDefault) == t
  {
    t.(id := ClockId(clock), name := t.name + " (Copy)", isDefault := false)
  }

  /** `prev.filter(t => t.id !== id)`. */
  function DeleteById(ts: seq<Template>, id: string): seq<Template> {
    Filter(ts, (t: Template) => t.id != id)
  }

  /** Deleting removes every template with that id and keeps every other one. */
  lemma DeleteByIdSpec(ts: seq<Template>, id: string, t: Template)
    ensures forall i | 0 <= i < |DeleteById(ts, id)| :: DeleteById(ts, id)[i].id != id
    ensures t in DeleteById(ts, id) <==> t in ts && t.id != id
  {
    FilterMember(ts, (x: Template) => x.id != id, t);
  }

  /** The default-seeding effect: an empty list becomes the two defaults. */
  function Seeded(ts: seq<Template>): (r: seq<Template>)
    ensures ts == [] ==> r == Defaults
    ensures ts != [] ==> r == ts
    ensures r != []
  {
    if |ts| == 0 then Defaults else ts
  }

  // ===================================================================
  // Shortcuts
  // ===================================================================

  function TrimAll(xs: seq<string>): (r: seq<string>)
    ensures |r| == |xs|
    ensures forall i | 0 <= i < |xs| :: r[i] == Trim(xs[i])
  {
    if xs == [] then [] else [Trim(xs[0])] + TrimAll(xs[1..])
  }

  predicate NonEmpty(s: string) {
    s != ""
  }

  /** The shortcut field: `value.split(',').map(s => s.trim()).filter(s => s)`. */
  function ParseShortcuts(text: string): seq<string> {
    Filter(TrimAll(Split(text, ',')), NonEmpty)
  }

  predicate CleanShortcut(s: string) {
    s != "" && Trimmed(s) && ',' !in s
  }

  /** A non-empty trim of a comma-free piece is a clean shortcut. */
  lemma TrimPieceClean(piece: string)
    requires ',' !in piece && Trim(piece) != ""
    ensures CleanShortcut(Trim(piece))
  {
    var a, b :| 0 <= a <= b <= |piece| && Trim(piece) == piece[a..b];
    assert forall c | c in piece[a..b] :: c in piece;
  }

  /** Parsed shortcuts are never empty, never padded and never hold a comma. */
  lemma ParseShortcutsClean(text: string)
    ensures forall i | 0 <= i < |ParseShortcuts(text)| :: CleanShortcut(ParseShortcuts(text)[i])
  {
    var pieces := Split(text, ',');
    var trimmed := TrimAll(pieces);
    var r := ParseShortcuts(text);
    forall i | 0 <= i < |r| ensures CleanShortcut(r[i]) {
      FilterMember(trimmed, NonEmpty, r[i]);
      var k :| 0 <= k < |trimmed| && trimmed[k] == r[i];
      TrimPieceClean(pieces[k]);
    }
  }

  /** Each shortcut after the first, preceded by the blank the field's `join(', ')` puts there. */
  function Padded(ys: seq<string>): (r: seq<string>)
    ensures |r| == |ys|
    ensures forall i | 0 <= i < |ys| :: r[i] == " " + ys[i]
  {
    if ys == [] then [] else [" " + ys[0]] + Padded(ys[1..])
  }

  lemma {:induction false} PaddedJoin(ys: seq<string>)
    requires |ys| >= 1
    ensures " " + Join(ys, ", ") == Join(Padded(ys), [','])
  {
    if |ys| > 1 {
      PaddedJoin(ys[1..]);
      assert Padded(ys)[1..] == Padded(ys[1..]);
      assert " " + Join(ys, ", ") == (" " + ys[0]) + [','] + (" " + Join(ys[1..], ", "));
    }
  }

  /** The pieces `split(',')` finds in the joined text: the first shortcut, then the padded rest. */
  function Pieces(xs: seq<string>): seq<string>
    requires xs != []
  {
    [xs[0]] + Padded(xs[1..])
  }

  lemma {:induction false} JoinPieces(xs: seq<string>)
    requires xs != []
    ensures Join(xs, ", ") == Join(Pieces(xs), [','])
  {
    if |xs| > 1 {
      PaddedJoin(xs[1..]);
      assert Join(xs, ", ") == xs[0] + [','] + (" " + Join(xs[1..], ", "));
      assert Pieces(xs)[1..] == Padded(xs[1..]);
    }
  }

  lemma SplitJoined(xs: seq<string>)
    requires xs != []
    requires forall i | 0 <= i < |xs| :: ',' !in xs[i]
    ensures Split(Join(xs, ", "), ',') == Pieces(xs)
  {
    JoinPieces(xs);
    PiecesNoComma(xs);
    SplitJoin(Pieces(xs), ',');
  }

  lemma PiecesNoComma(xs: seq<string>)
    requires xs != []
    requires forall i | 0 <= i < |xs| :: ',' !in xs[i]
    ensures forall i | 0 <= i < |Pieces(xs)| :: ',' !in Pieces(xs)[i]
  {
    var pieces := Pieces(xs);
    forall i | 0 <= i < |pieces| ensures ',' !in pieces[i] {
      if i > 0 {
        var p := " " + xs[i];
        assert pieces[i] == p;
        assert forall k | 0 <= k < |p| :: p[k] == if k == 0 then ' ' else xs[i][k - 1];
      }
    }
  }

  lemma TrimPieces(xs: seq<string>)
    requires xs != []
    requires forall i | 0 <= i < |xs| :: Trimmed(xs[i])
    ensures TrimAll(Pieces(xs)) == xs
  {
    var pieces := Pieces(xs);
    forall i | 0 <= i < |pieces| ensures Trim(pieces[i]) == xs[i] {
      if i == 0 {
        TrimTrimmed(xs[0]);
      } else {
        assert pieces[i] == " " + xs[i];
        TrimAfterBlank(xs[i]);
      }
    }
  }

  /** An empty field means no shortcuts. */
  lemma EmptyField()
    ensures ParseShortcuts("") == []
  {
    assert Split("", ',') == [[]];
    assert TrimAll([[]]) == [Trim([])];
    FilterNone([Trim([])], NonEmpty);
  }

  /**
   * The field round-trips: showing clean shortcuts joined with ', ' and
   * parsing the text back gives the same shortcuts.
   */
  lemma ShortcutsRoundTrip(xs: seq<string>)
    requires forall i | 0 <= i < |xs| :: CleanShortcut(xs[i])
    ensures ParseShortcuts(Join(xs, ", ")) == xs
  {
    if xs == [] {
      EmptyField();
    } else {
      forall i | 0 <= i < |xs| ensures ',' !in xs[i] && Trimmed(xs[i]) && NonEmpty(xs[i]) {
        assert CleanShortcut(xs[i]);
      }
      SplitJoined(xs);
      TrimPieces(xs);
      FilterAll(xs, NonEmpty);
    }
  }

  /** The key-down handler's search: the first template listing `Ctrl+<key>`. */
  function FindByShortcut(ts: seq<Template>, ctrl: bool, key: string): (r: Option<nat>)
    ensures !ctrl ==> r.None?
    ensures ctrl ==> r == FindIndex(ts, (t: Template) => ("Ctrl+" + key) in t.shortcuts)
  {
    if ctrl then FindIndex(ts, (t: Template) => ("Ctrl+" + key) in t.shortcuts) else None
  }

  /** With Ctrl held, the lookup returns the first template whose shortcuts hold `Ctrl+<key>`; otherwise none. */
  lemma FindByShortcutRule(ts: seq<Template>, ctrl: bool, key: string)
    ensures FindByShortcut(ts, ctrl, key).Some? ==>
              ctrl && var k := FindByShortcut(ts, ctrl, key).value;
              k < |ts| && ("Ctrl+" + key) in ts[k].shortcuts
              && forall j | 0 <= j < k :: ("Ctrl+" + key) !in ts[j].shortcuts
    ensures FindByShortcut(ts, ctrl, key).None? ==>
              !ctrl || forall j | 0 <= j < |ts| :: ("Ctrl+" + key) !in ts[j].shortcuts
  {
  }

  // ===================================================================
  // The component's state
  // ===================================================================

  /**
   * The template list, the template being edited (if any), the form and the
   * dialog. `applied` records the templates handed to `onApplyTemplate`.
   * The seeding effect runs whenever the length changes, so every operation
   * that can empty the list ends with it.
   */
  class TemplateManager {
    var templates: seq<Template>
    var editing: Option<Template>
    var form: Template
    var openDialog: bool
    var applied: seq<Template>

    /** After mount: the list is seeded, nothing is being edited. */
    constructor ()
      ensures templates == Defaults && editing.None? && form == EmptyForm && !openDialog && applied == []
    {
      templates := Seeded([]);
      editing := None;
      form := EmptyForm;
      openDialog := false;
      applied := [];
    }

    /** `handleOpenDialog`: edit a copy of the template, or start from the empty form. */
    method OpenDialog(template: Option<Template>)
      modifies this
      ensures editing == template && openDialog
      ensures form == if template.Some? then template.value else EmptyForm
      ensures templates == old(templates) && applied == old(applied)
    {
      editing := template;
      form := if template.Some? then template.value else EmptyForm;
      openDialog := true;
    }

    /** `handleCloseDialog`: close, stop editing, clear the form. */
    method CloseDialog()
      modifies this
      ensures !openDialog && editing.None? && form == EmptyForm
      ensures templates == old(templates) && applied == old(applied)
    {
      openDialog := false;
      editing := None;
      form := EmptyForm;
    }

    /** A form field edit, with the shortcut field parsed. */
    method SetShortcutText(text: string)
      modifies this
      ensures form == old(form).(shortcuts := ParseShortcuts(text))
      ensures templates == old(templates) && editing == old(editing) && openDialog == old(openDialog)
      ensures applied == old(applied)
    {
      form := form.(shortcuts := ParseShortcuts(text));
    }

    /** `handleSaveTemplate`: replace the edited template or append a new one, then close the dialog. */
    method SaveTemplate(clock: nat)
      modifies this
      ensures old(editing).Some? ==> templates == Seeded(ReplaceById(old(templates), old(editing).value.id, old(form)))
      ensures old(editing).None? ==> templates == old(templates) + [Created(old(form), clock)]
      ensures !openDialog && editing.None? && form == EmptyForm && applied == old(applied)
    {
      if editing.Some? {
        templates := ReplaceById(templates, editing.value.id, form);
      } else {
        templates := templates + [Created(form, clock)];
      }
      templates := Seeded(templates);
      CloseDialog();
    }

    /** `handleDeleteTemplate`; deleting the last one brings the defaults back. */
    method DeleteTemplate(id: string)
      modifies this
      ensures templates == Seeded(DeleteById(old(templates), id))
      ensures editing == old(editing) && form == old(form) && openDialog == old(openDialog)
      ensures applied == old(applied)
    {
      templates := Seeded(DeleteById(templates, id));
    }

    /** `handleDuplicateTemplate`. */
    method DuplicateTemplate(t: Template, clock: nat)
      modifies this
      ensures templates == old(templates) + [Duplicate(t, clock)]
      ensures editing == old(editing) && form == old(form) && openDialog == old(openDialog)
      ensures applied == old(applied)
    {
      templates := templates + [Duplicate(t, clock)];
    }

    /** The key-down handler: with Ctrl held, apply the first template listing `Ctrl+<key>`. */
    method KeyDown(ctrl: bool, key: string)
      modifies this
      ensures FindByShortcut(old(templates), ctrl, key).Some? ==>
                applied == old(applied) + [old(templates)[FindByShortcut(old(templates), ctrl, key).value]]
      ensures FindByShortcut(old(templates), ctrl, key).None? ==> applied == old(applied)
      ensures templates == old(templates) && editing == old(editing) && form == old(form)
      ensures openDialog == old(openDialog)
    {
      var found := FindByShortcut(templates, ctrl, key);
      if found.Some? {
        applied := applied + [templates[found.value]];
      }
    }
  }
}
