/**
 * The command catalogue as shipped (`SHORTCUTS`), the concatenation of its
 * sections in the order the catalogue lists them, and the lookups over it.
 */
module Shortcuts {
  import opened Js
  import opened Catalogue
  import NavigationSection
  import QuickOpenSection
  import IssueActionsSection
  import IssueEditingSection
  import IssueRelationsSection
  import ViewControlSection
  import SearchAndFilterSection
  import TeamOperationsSection
  import SelectionAndMovementSection
  import ApplicationSection
  import MarkdownEditorSection

  /** The whole catalogue, section after section. */
  const All: seq<Entry> :=
    NavigationSection.Entries +
    QuickOpenSection.Entries +
    IssueActionsSection.Entries +
    IssueEditingSection.Entries +
    IssueRelationsSection.Entries +
    ViewControlSection.Entries +
    SearchAndFilterSection.Entries +
    TeamOperationsSection.Entries +
    SelectionAndMovementSection.Entries +
    ApplicationSection.Entries +
    MarkdownEditorSection.Entries

  /** `getAllShortcuts()`: the catalogue in its declared order. */
  function AllShortcuts(): seq<Entry> {
    All
  }

  /** `findShortcutById(id)`: the first catalogue entry with that id, or null. */
  function FindShortcutById(id: string): Option<Entry> {
    Find(All, id)
  }
}
