/** A task card (`TodoCard`): the label formatting of enum values, the
    subtask form with its guarded submit, the action menu of the card and the
    per-subtask menus. */
module TodoCard {
  import opened Outcome
  import opened Text
  import opened TodoTypes

  /** `\w` of a JavaScript regular expression without the `u` flag. */
  predicate IsWordChar(c: char) {
    'a' <= c <= 'z' || 'A' <= c <= 'Z' || '0' <= c <= '9' || c == '_'
  }

  /** `toUpperCase` on a character matched by `\w`: only `a`..`z` change. */
  function ToUpper(c: char): (u: char)
    ensures IsWordChar(c) <==> IsWordChar(u)
    ensures !('a' <= u <= 'z')
    ensures 'a' <= c <= 'z' ==> u as int == c as int - 32
    ensures !('a' <= c <= 'z') ==> u == c
  {
    if 'a' <= c <= 'z' then (c as int - 32) as char else c
  }

  /** `s.replace(/_/g, ' ')` */
  function Underscores(s: string): (r: string)
    ensures |r| == |s| && '_' !in r
    ensures forall i :: 0 <= i < |s| && s[i] == '_' ==> r[i] == ' '
    ensures forall i :: 0 <= i < |s| && s[i] != '_' ==> r[i] == s[i]
  {
    seq(|s|, i requires 0 <= i < |s| => if s[i] == '_' then ' ' else s[i])
  }

  /** A position where a word starts: `\b\w`. */
  predicate WordStart(s: string, i: int)
    requires 0 <= i < |s|
  {
    IsWordChar(s[i]) && (i == 0 || !IsWordChar(s[i - 1]))
  }

  /** `s.replace(/\b\w/g, (ch) => ch.toUpperCase())` */
  function CapitalizeWords(s: string): string {
    seq(|s|, i requires 0 <= i < |s| => if WordStart(s, i) then ToUpper(s[i]) else s[i])
  }

  /** `labelizeWord`: underscores become spaces and each word starts upper-case. */
  function LabelizeWord(s: string): (r: string)
    ensures |r| == |s|
    ensures '_' !in r
    ensures forall i :: 0 <= i < |s| ==> (IsWordChar(r[i]) <==> IsWordChar(s[i]) && s[i] != '_')
    ensures forall i :: 0 <= i < |s| && s[i] == '_' ==> r[i] == ' '
    ensures forall i :: 0 <= i < |s| && WordStart(Underscores(s), i) ==> r[i] == ToUpper(s[i])
    ensures forall i :: 0 <= i < |s| && s[i] != '_' && !WordStart(Underscores(s), i) ==> r[i] == s[i]
  {
    var u := Underscores(s);
    var r := CapitalizeWords(u);
    assert forall i :: 0 <= i < |s| ==> r[i] == '_' ==> u[i] == '_';
    r
  }

  /** Capitalizing keeps the word boundaries where they were. */
  lemma CapitalizeKeepsWords(s: string)
    ensures forall i :: 0 <= i < |s| ==> (IsWordChar(CapitalizeWords(s)[i]) <==> IsWordChar(s[i]))
    ensures forall i :: 0 <= i < |s| ==> (WordStart(CapitalizeWords(s), i) <==> WordStart(s, i))
  {
  }

  /** Labelizing a label changes nothing. */
  lemma LabelizeIdempotent(s: string)
    ensures LabelizeWord(LabelizeWord(s)) == LabelizeWord(s)
  {
    var r := LabelizeWord(s);
    var u := Underscores(s);
    CapitalizeKeepsWords(u);
    assert Underscores(r) == r;
    assert CapitalizeWords(r) == r by {
      forall i | 0 <= i < |r|
        ensures CapitalizeWords(r)[i] == r[i]
      {
        if WordStart(r, i) {
          assert WordStart(u, i);
        }
      }
    }
  }

  lemma LabelizeInProgress()
    ensures LabelizeWord("in_progress") == "In Progress"
  {
    var u := Underscores("in_progress");
    assert u == "in progress";
    assert WordStart(u, 0) && WordStart(u, 3);
    assert forall i :: 0 <= i < |u| && i != 0 && i != 3 ==> !WordStart(u, i);
  }

  /** The first letter of each label is upper-case, so the select options of
      the states never show a lower-case initial. */
  lemma {:induction false} StateLabelsCapitalized(st: State)
    ensures |LabelizeWord(StateName(st))| > 0
    ensures LabelizeWord(StateName(st))[0] == ToUpper(StateName(st)[0])
  {
    var s := StateName(st);
    assert IsWordChar(s[0]) && s[0] != '_';
    assert WordStart(Underscores(s), 0);
  }

  /** Zebra striping of the subtask rows. */
  function SubtaskRowClass(i: nat): (c: string)
    ensures i % 2 == 0 <==> c == "bg-gray-100"
    ensures i % 2 == 1 <==> c == "bg-white"
  {
    if i % 2 == 0 then "bg-gray-100" else "bg-white"
  }

  /** Neighbouring subtask rows never share a background. */
  lemma SubtaskRowsAlternate(i: nat)
    ensures SubtaskRowClass(i) != SubtaskRowClass(i + 1)
  {
  }

  class CardState {
    var menuOpen: bool
    var subMenuOpenId: Option<string>
    var subTitle: string
    var subPriority: Priority
    var subState: State
    var subDue: string
    var savingSub: bool

    constructor ()
      ensures !menuOpen && subMenuOpenId == None
      ensures subTitle == "" && subPriority == Normal && subState == ToDo && subDue == "" && !savingSub
    {
      menuOpen := false;
      subMenuOpenId := None;
      subTitle := "";
      subPriority := Normal;
      subState := ToDo;
      subDue := "";
      savingSub := false;
    }

    /** `handleCreateSub`: refused while saving or when the trimmed title is
        blank. Otherwise the draft, with the trimmed title, is handed to
        `onCreateSub`; when that resolves the fields are reset and the form is
        closed; when it rejects they are kept. `savingSub` is false afterwards. */
    method HandleCreateSub(resolved: bool) returns (sent: Option<SubDraft>, closeForm: bool)
      modifies this`subTitle, this`subPriority, this`subState, this`subDue, this`savingSub
      ensures Trim(old(subTitle)) == [] || old(savingSub) ==> sent == None && !closeForm && unchanged(this)
      ensures Trim(old(subTitle)) != [] && !old(savingSub) ==>
        && sent == Some(SubDraft(Trim(old(subTitle)), old(subPriority), old(subState), old(subDue)))
        && !savingSub
        && closeForm == resolved
        && (resolved ==> subTitle == "" && subPriority == Normal && subState == ToDo && subDue == "")
        && (!resolved ==>
              subTitle == old(subTitle) && subPriority == old(subPriority)
              && subState == old(subState) && subDue == old(subDue))
    {
      var t := Trim(subTitle);
      if t == [] || savingSub {
        return None, false;
      }
      savingSub := true;
      sent := Some(SubDraft(t, subPriority, subState, subDue));
      closeForm := false;
      if resolved {
        subTitle := "";
        subPriority := Normal;
        subState := ToDo;
        subDue := "";
        closeForm := true;
      }
      savingSub := false;
    }

    /** The action-menu button of the card. */
    method ToggleMenu()
      modifies this`menuOpen
      ensures menuOpen == !old(menuOpen)
    {
      menuOpen := !menuOpen;
    }

    /** Edit: the menu closes and the card's task is opened for editing. */
    method MenuEdit(item: Todo) returns (edit: Todo)
      modifies this`menuOpen
      ensures !menuOpen && edit == item
    {
      menuOpen := false;
      edit := item;
    }

    /** Delete: the menu closes and `onDelete` is called with the card's id. */
    method MenuDelete(item: Todo) returns (deleteArg: string)
      modifies this`menuOpen
      ensures !menuOpen && deleteArg == item.id
    {
      menuOpen := false;
      deleteArg := item.id;
    }

    /** Add subtask: the menu closes and the form is asked to take the opposite
        of its current visibility. */
    method MenuAddSubtask(isSubFormOpen: bool) returns (requestOpen: bool)
      modifies this`menuOpen
      ensures !menuOpen && requestOpen == !isSubFormOpen
    {
      menuOpen := false;
      requestOpen := !isSubFormOpen;
    }

    /** The menu button of a subtask row: closes that row's menu if it is the
        open one, otherwise opens it (closing any other). */
    method ToggleSubMenu(subId: string)
      modifies this`subMenuOpenId
      ensures old(subMenuOpenId) == Some(subId) ==> subMenuOpenId == None
      ensures old(subMenuOpenId) != Some(subId) ==> subMenuOpenId == Some(subId)
    {
      subMenuOpenId := if subMenuOpenId == Some(subId) then None else Some(subId);
    }

    /** Edit in a subtask menu: the menu closes and the subtask is opened for editing. */
    method SubMenuEdit(sub: Todo) returns (edit: Todo)
      modifies this`subMenuOpenId
      ensures subMenuOpenId == None && edit == sub
    {
      subMenuOpenId := None;
      edit := sub;
    }

    /** Delete in a subtask menu: the menu closes and `onDelete` is called with
        the subtask's id. */
    method SubMenuDelete(sub: Todo) returns (deleteArg: string)
      modifies this`subMenuOpenId
      ensures subMenuOpenId == None && deleteArg == sub.id
    {
      subMenuOpenId := None;
      deleteArg := sub.id;
    }
  }

  /** The title a card sends is already trimmed and non-blank, so the engine's
      own blank-title check always lets it through. */
  lemma SentTitlePassesEngineCheck(title: string)
    requires Trim(title) != []
    ensures Trim(Trim(title)) != []
  {
    TrimIdempotent(title);
  }
}
