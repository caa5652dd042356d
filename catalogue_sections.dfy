/** Section 1 of the command catalogue: Navigation. */
module NavigationSection {
  import opened Catalogue

  const Entries: seq<Entry> := [
    Sequential("go_to_inbox", "Go to Inbox", "Navigate to inbox view",
      ["go to inbox", "open inbox", "show inbox", "inbox view"],
      ["g", "i"]),
    Sequential("go_to_my_issues", "Go to My Issues", "View issues assigned to me",
      ["my issues", "assigned to me", "show my tasks", "my work"],
      ["g", "m"]),
    Sequential("go_to_active", "Go to Active Issues", "View active issues",
      ["active issues", "current issues", "in progress"],
      ["g", "a"]),
    Sequential("go_to_backlog", "Go to Backlog", "Navigate to backlog view",
      ["backlog", "go to backlog", "show backlog", "backlog view"],
      ["g", "b"]),
    Sequential("go_to_board", "Go to Board", "Open board view",
      ["board view", "kanban", "show board", "board"],
      ["g", "d"]),
    Sequential("go_to_roadmap", "Go to Roadmap", "Navigate to roadmap",
      ["roadmap", "timeline", "show roadmap", "planning view"],
      ["g", "r"]),
    Sequential("go_to_projects", "Go to Projects", "View all projects",
      ["projects", "show projects", "project list", "all projects"],
      ["g", "p"]),
    Sequential("go_to_archive", "Go to Archive", "View archived issues",
      ["archive", "archived issues", "show archive", "completed"],
      ["g", "z"]),
    Sequential("go_to_settings", "Go to Settings", "Open workspace settings",
      ["settings", "preferences", "configuration", "workspace settings"],
      ["g", "s"]),
    Sequential("go_to_teams", "Go to Teams", "Navigate to teams view",
      ["teams", "show teams", "team list", "all teams"],
      ["g", "t"]),
    Sequential("go_to_cycles", "Go to Cycles", "Navigate to cycles view",
      ["cycles", "go to cycles", "show cycles", "all cycles"],
      ["g", "c"]),
    Sequential("go_to_active_cycle", "Go to Active Cycle", "Navigate to active cycle",
      ["active cycle", "current cycle", "this cycle", "current sprint"],
      ["g", "v"]),
    Sequential("go_to_upcoming_cycle", "Go to Upcoming Cycle", "Navigate to upcoming cycle",
      ["upcoming cycle", "next cycle", "next sprint"],
      ["g", "w"]),
    Sequential("go_to_all_issues", "Go to All Issues", "View all issues",
      ["all issues", "show all issues", "every issue"],
      ["g", "e"]),
    Chord("navigate_back", "Go Back", "Navigate to previous page",
      ["go back", "previous", "back", "return"],
      "[", []),
    Chord("navigate_forward", "Go Forward", "Navigate to next page",
      ["go forward", "next", "forward"],
      "]", []),
    Chord("open_parent_issue", "Open Parent Issue", "Navigate to parent issue",
      ["parent issue", "go to parent", "open parent"],
      "ArrowUp", [Cmd, Shift]),
    Chord("open_sub_issue", "Open Sub Issue", "Navigate to sub issue",
      ["sub issue", "go to sub issue", "open sub issue"],
      "ArrowDown", [Cmd, Shift])
  ]
}

/** Section 2 of the command catalogue: Quick Open. */
module QuickOpenSection {
  import opened Catalogue

  const Entries: seq<Entry> := [
    Sequential("open_favorite", "Open Favorite", "Quick open a favorite",
      ["open favorite", "favorites", "bookmarks"],
      ["o", "f"]),
    Sequential("open_project", "Open Project", "Quick open a project",
      ["open project", "find project"],
      ["o", "p"]),
    Sequential("open_cycle", "Open Cycle", "Quick open a cycle",
      ["open cycle", "find cycle"],
      ["o", "c"]),
    Sequential("open_user", "Open User", "Quick open user profile",
      ["open user", "find user", "user profile"],
      ["o", "u"]),
    Sequential("open_my_profile", "Open My Profile", "Open my user profile",
      ["my profile", "open my profile", "profile"],
      ["o", "m"]),
    Sequential("open_team", "Open Team", "Quick open a team",
      ["open team", "find team"],
      ["o", "t"])
  ]
}

/** Section 3 of the command catalogue: Issue Actions. */
module IssueActionsSection {
  import opened Catalogue

  const Entries: seq<Entry> := [
    Chord("create_issue", "Create Issue", "Open create issue modal",
      ["new issue", "create issue", "add issue", "create new"],
      "c", []),
    Chord("create_issue_from_template", "Create from Template", "Create issue from template",
      ["new from template", "use template", "template issue"],
      "k", [Cmd, Shift]),
    Chord("duplicate_issue", "Duplicate Issue", "Duplicate current issue",
      ["duplicate", "copy issue", "clone issue", "duplicate this"],
      "d", [Cmd, Shift]),
    Chord("delete_issue", "Delete Issue", "Delete current issue",
      ["delete issue", "remove issue", "delete this"],
      "Delete", [Cmd]),
    Chord("archive_issue", "Archive Issue", "Archive current issue",
      ["archive issue", "archive this", "move to archive"],
      "e", [Cmd]),
    Chord("copy_issue_link", "Copy Issue Link", "Copy link to current issue",
      ["copy link", "get link", "share link", "copy issue link"],
      ".", [Cmd]),
    Chord("copy_issue_id", "Copy Issue ID", "Copy issue ID to clipboard",
      ["copy id", "get id", "copy issue id", "issue identifier"],
      ".", [Cmd, Shift]),
    Chord("copy_issue_branch", "Copy Git Branch Name", "Copy git branch name for issue",
      ["copy branch", "git branch", "branch name", "get branch"],
      ",", [Cmd, Shift]),
    Chord("merge_issues", "Merge Issues", "Merge multiple issues",
      ["merge issues", "combine issues", "merge selected"],
      "m", [Cmd, Shift]),
    Chord("create_sub_issue", "Create Sub-Issue", "Create a sub-issue",
      ["create sub issue", "new sub issue", "add sub task"],
      "o", [Cmd, Shift]),
    Chord("move_to_team", "Move to Team", "Move issue to another team",
      ["move to team", "change team", "transfer team"],
      "m", [Cmd, Shift]),
    Chord("set_issue_status_1", "Set Status (Quick 1)", "Quick set to first status",
      ["quick status one"],
      "1", [Cmd, Alt]),
    Chord("set_issue_status_2", "Set Status (Quick 2)", "Quick set to second status",
      ["quick status two"],
      "2", [Cmd, Alt]),
    Chord("set_issue_status_3", "Set Status (Quick 3)", "Quick set to third status",
      ["quick status three"],
      "3", [Cmd, Alt]),
    Chord("archive_or_restore", "Archive/Restore Issue", "Archive or restore issue",
      ["archive or restore", "toggle archive"],
      "#", [])
  ]
}

/** Section 4 of the command catalogue: Issue Editing. */
module IssueEditingSection {
  import opened Catalogue

  const Entries: seq<Entry> := [
    Chord("edit_issue", "Edit Issue", "Edit issue title and description",
      ["edit issue", "modify issue", "change issue"],
      "e", []),
    Chord("rename_issue", "Rename Issue", "Quick rename issue title",
      ["rename", "change title", "rename issue", "edit title"],
      "r", []),
    Chord("assign_issue", "Assign Issue", "Open assignee selector",
      ["assign", "assign issue", "set assignee", "assign to"],
      "a", []),
    Chord("assign_to_me", "Assign to Me", "Assign issue to myself",
      ["assign to me", "take issue", "claim issue", "self assign"],
      "i", []),
    Chord("unassign_issue", "Unassign Issue", "Remove assignee from issue",
      ["unassign", "remove assignee", "unassign issue"],
      "a", [Shift]),
    Chord("change_status", "Change Status", "Open status selector",
      ["change status", "update status", "set status", "status"],
      "s", []),
    Chord("change_priority", "Change Priority", "Set issue priority",
      ["set priority", "change priority", "priority", "urgent"],
      "p", [Shift]),
    Chord("set_priority_urgent", "Set Priority Urgent", "Set priority to urgent",
      ["urgent priority", "make urgent", "highest priority"],
      "1", []),
    Chord("set_priority_high", "Set Priority High", "Set priority to high",
      ["high priority", "make high priority"],
      "2", []),
    Chord("set_priority_normal", "Set Priority Normal", "Set priority to normal",
      ["normal priority", "medium priority"],
      "3", []),
    Chord("set_priority_low", "Set Priority Low", "Set priority to low",
      ["low priority", "make low priority"],
      "4", []),
    Chord("clear_priority", "Clear Priority", "Remove priority from issue",
      ["no priority", "clear priority", "remove priority"],
      "0", []),
    Chord("set_labels", "Set Labels", "Open label selector",
      ["add label", "set labels", "tag issue", "labels"],
      "l", []),
    Chord("remove_label", "Remove Label", "Remove label from issue",
      ["remove label", "delete label", "clear label"],
      "l", [Shift]),
    Chord("set_estimate", "Set Estimate", "Set issue estimate",
      ["estimate", "set estimate", "story points", "effort"],
      "e", [Shift]),
    Chord("set_due_date", "Set Due Date", "Set issue due date",
      ["due date", "set deadline", "when due", "deadline"],
      "d", [Cmd]),
    Chord("remove_due_date", "Remove Due Date", "Remove issue due date",
      ["remove due date", "clear deadline", "no deadline"],
      "d", [Cmd, Shift]),
    Chord("add_to_cycle", "Add to Cycle", "Add issue to cycle/sprint",
      ["add to cycle", "add to sprint", "cycle", "sprint"],
      "c", [Shift]),
    Chord("add_to_active_cycle", "Add to Active Cycle", "Add issue to active cycle",
      ["add to active cycle", "current cycle", "this cycle"],
      "c", [Cmd, Shift]),
    Chord("add_to_project", "Add to Project", "Add issue to project",
      ["add to project", "move to project", "project", "assign project"],
      "p", []),
    Chord("set_parent", "Set Parent Issue", "Set parent issue relationship",
      ["set parent", "make subtask", "parent issue", "link parent"],
      "i", [Shift]),
    Chord("add_comment", "Add Comment", "Start writing a comment",
      ["comment", "add comment", "write comment", "reply"],
      "m", [Cmd])
  ]
}

/** Section 5 of the command catalogue: Issue Relations. */
module IssueRelationsSection {
  import opened Catalogue

  const Entries: seq<Entry> := [
    Sequential("mark_as_blocked", "Mark as Blocked", "Mark issue as blocked by another",
      ["mark blocked", "blocked by", "is blocked"],
      ["m", "b"]),
    Sequential("mark_as_blocking", "Mark as Blocking", "Mark issue as blocking another",
      ["mark blocking", "blocks", "is blocking"],
      ["m", "x"]),
    Sequential("reference_related", "Reference Related Issue", "Reference a related issue",
      ["related issue", "reference issue", "link issue"],
      ["m", "r"])
  ]
}

/** Section 6 of the command catalogue: View Control. */
module ViewControlSection {
  import opened Catalogue

  const Entries: seq<Entry> := [
    Chord("toggle_sidebar", "Toggle Sidebar", "Show/hide sidebar",
      ["toggle sidebar", "hide sidebar", "show sidebar", "sidebar"],
      "\\", [Cmd]),
    Chord("toggle_details_sidebar", "Toggle Details Sidebar", "Show/hide issue details sidebar",
      ["details sidebar", "issue details", "show details"],
      "i", [Cmd]),
    Chord("toggle_list_board_view", "Toggle List/Board View", "Switch between list and board view",
      ["toggle view", "list board", "switch layout"],
      "b", [Cmd]),
    Chord("toggle_fullscreen", "Toggle Fullscreen", "Enter/exit fullscreen mode",
      ["fullscreen", "full screen", "maximize", "expand view"],
      "f", []),
    Chord("zoom_in", "Zoom In", "Increase zoom level",
      ["zoom in", "bigger", "increase size", "magnify"],
      "+", [Cmd]),
    Chord("zoom_out", "Zoom Out", "Decrease zoom level",
      ["zoom out", "smaller", "decrease size", "shrink"],
      "-", [Cmd]),
    Chord("reset_zoom", "Reset Zoom", "Reset zoom to default",
      ["reset zoom", "default size", "normal size"],
      "0", [Cmd]),
    Chord("toggle_completed", "Toggle Completed Issues", "Show/hide completed issues",
      ["toggle completed", "show completed", "hide completed", "done issues"],
      "h", [Shift]),
    Chord("change_view", "Change View", "Switch between view types",
      ["change view", "switch view", "different view"],
      "v", []),
    Chord("group_by", "Group By", "Change grouping option",
      ["group by", "change grouping", "organize by"],
      "g", [Shift]),
    Chord("sort_by", "Sort By", "Change sort order",
      ["sort by", "order by", "change sort"],
      "s", [Shift]),
    Chord("toggle_filters", "Toggle Filters", "Show/hide filters panel",
      ["toggle filters", "show filters", "hide filters", "filter panel"],
      "f", [Shift])
  ]
}

/** Section 8 of the command catalogue (the seventh in catalogue order): Search And Filter. */
module SearchAndFilterSection {
  import opened Catalogue

  const Entries: seq<Entry> := [
    Chord("search", "Search", "Open search/command palette",
      ["search", "find", "look for", "search for", "command menu"],
      "k", [Cmd]),
    Chord("open_search_slash", "Open Search (/)", "Open search with slash key",
      ["search with slash"],
      "/", []),
    Chord("save_or_submit", "Save or Submit", "Save or submit current form",
      ["save", "submit", "save changes"],
      "Enter", [Cmd]),
    Chord("filter_issues", "Filter Issues", "Open filter menu",
      ["filter", "filter issues", "add filter", "apply filter"],
      "f", []),
    Chord("clear_filters", "Clear Filters", "Remove all filters",
      ["clear filters", "remove filters", "reset filters", "no filters"],
      "x", [Shift]),
    Chord("filter_my_issues", "Filter My Issues", "Show only my issues",
      ["only my issues", "filter mine", "just my work"],
      "m", [Shift]),
    Chord("filter_unassigned", "Filter Unassigned", "Show unassigned issues",
      ["unassigned", "no owner", "not assigned", "available issues"],
      "u", [Shift])
  ]
}

/** Section 9 of the command catalogue (the eighth in catalogue order): Team Operations. */
module TeamOperationsSection {
  import opened Catalogue

  const Entries: seq<Entry> := [
    Chord("switch_team", "Switch Team", "Open team switcher",
      ["switch team", "change team", "different team", "team switcher"],
      "t", []),
    Chord("team_settings", "Team Settings", "Open team settings",
      ["team settings", "team config", "team preferences"],
      ",", [Cmd]),
    Chord("invite_member", "Invite Team Member", "Open invite dialog",
      ["invite member", "add member", "invite someone", "new member"],
      "i", [Cmd])
  ]
}

/** Section 7 of the command catalogue (the ninth in catalogue order): Selection And Movement. */
module SelectionAndMovementSection {
  import opened Catalogue

  const Entries: seq<Entry> := [
    Chord("select_all", "Select All", "Select all visible issues",
      ["select all", "all issues", "select everything"],
      "a", [Cmd]),
    Chord("select_none", "Deselect All", "Clear selection",
      ["deselect", "clear selection", "select none", "unselect"],
      "Escape", []),
    Chord("select_next", "Move Down", "Move selection down",
      ["next issue", "down", "select next", "move down"],
      "j", []),
    Chord("select_previous", "Move Up", "Move selection up",
      ["previous issue", "up", "select previous", "move up"],
      "k", []),
    Chord("move_down_arrow", "Move Down (Arrow)", "Move selection down with arrow key",
      ["arrow down"],
      "ArrowDown", []),
    Chord("move_up_arrow", "Move Up (Arrow)", "Move selection up with arrow key",
      ["arrow up"],
      "ArrowUp", []),
    Chord("move_right", "Move Right", "Move selection right",
      ["move right", "right"],
      "ArrowRight", []),
    Chord("move_left", "Move Left", "Move selection left",
      ["move left", "left"],
      "ArrowLeft", []),
    Chord("select_item", "Select Item", "Select item in list",
      ["select", "select item", "check"],
      "x", []),
    Chord("open_selected", "Open Selected", "Open selected issue",
      ["open", "open issue", "view issue", "show details"],
      "Enter", []),
    Chord("open_selected_o", "Open Selected (O)", "Open focused item with O key",
      ["open with o"],
      "o", []),
    Chord("open_in_new_tab", "Open in New Tab", "Open issue in new tab",
      ["new tab", "open in tab", "separate tab"],
      "Enter", [Cmd]),
    Chord("peek_issue", "Peek Issue", "Peek into issue (hover and hold space)",
      ["peek", "preview", "quick view"],
      " ", [])
  ]
}

/** Section 10 of the command catalogue: Application. */
module ApplicationSection {
  import opened Catalogue

  const Entries: seq<Entry> := [
    Chord("show_shortcuts", "Show Shortcuts", "Display keyboard shortcuts",
      ["show shortcuts", "help", "keyboard shortcuts", "shortcuts help"],
      "?", []),
    Chord("undo", "Undo", "Undo last action",
      ["undo", "revert", "go back", "undo that"],
      "z", [Cmd]),
    Chord("redo", "Redo", "Redo last undone action",
      ["redo", "redo that", "restore"],
      "z", [Cmd, Shift]),
    Chord("refresh", "Refresh", "Refresh current view",
      ["refresh", "reload", "update view", "sync"],
      "r", [Cmd]),
    Chord("toggle_dark_mode", "Toggle Dark Mode", "Switch between light/dark theme",
      ["dark mode", "light mode", "toggle theme", "switch theme"],
      "l", [Cmd, Shift]),
    Chord("open_preferences", "Open Preferences", "Open user preferences",
      ["preferences", "settings", "my settings", "config"],
      ",", [Cmd]),
    Chord("logout", "Logout", "Sign out of Linear",
      ["logout", "sign out", "log out"],
      "q", [Cmd, Shift])
  ]
}

/** Section 11 of the command catalogue: Markdown Editor. */
module MarkdownEditorSection {
  import opened Catalogue

  const Entries: seq<Entry> := [
    Chord("bold_text", "Bold", "Make text bold",
      ["bold", "make bold", "bold text"],
      "b", [Cmd]),
    Chord("italic_text", "Italic", "Make text italic",
      ["italic", "make italic", "italicize"],
      "i", [Cmd]),
    Chord("strikethrough_text", "Strikethrough", "Strike through text",
      ["strikethrough", "strike", "cross out"],
      "x", [Cmd, Shift]),
    Chord("insert_link", "Insert Link", "Add hyperlink",
      ["add link", "insert link", "hyperlink"],
      "k", [Cmd]),
    Chord("insert_code", "Insert Code", "Format as code",
      ["code", "inline code", "code format"],
      "e", [Cmd]),
    Chord("insert_code_block", "Insert Code Block", "Add code block",
      ["code block", "multiline code", "snippet"],
      "c", [Cmd, Shift]),
    Chord("bullet_list", "Bullet List", "Create bullet list",
      ["bullet list", "unordered list", "bullets"],
      "8", [Cmd, Shift]),
    Chord("numbered_list", "Numbered List", "Create numbered list",
      ["numbered list", "ordered list", "numbers"],
      "9", [Cmd, Shift]),
    Chord("underline_text", "Underline", "Underline text",
      ["underline", "underline text"],
      "u", [Cmd]),
    Chord("blockquote", "Blockquote", "Create blockquote",
      ["blockquote", "quote", "quotation"],
      ">", [Cmd]),
    Chord("heading_1", "Heading 1", "Format as heading 1",
      ["heading one", "h1", "large heading"],
      "1", [Cmd, Shift]),
    Chord("heading_2", "Heading 2", "Format as heading 2",
      ["heading two", "h2", "medium heading"],
      "2", [Cmd, Shift]),
    Chord("heading_3", "Heading 3", "Format as heading 3",
      ["heading three", "h3", "small heading"],
      "3", [Cmd, Shift]),
    Chord("todo_list", "Todo List", "Create todo/checkbox list",
      ["todo list", "checkbox list", "task list"],
      "7", [Cmd, Shift]),
    Chord("attach_file", "Attach File", "Attach image or file",
      ["attach file", "upload file", "add attachment"],
      "a", [Cmd, Shift])
  ]
}
