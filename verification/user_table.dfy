/** The admin user table (src/components/Admin/UserTable.jsx): the
    filtered and sorted list of users, the sortable column headers, the row
    selection, and the bulk actions over the selected rows. */
module UserTable {
  import opened Opt
  import opened Seqs
  import opened Text

  datatype User = User(
    id: int,
    name: string,
    email: string,
    phone: Option<string>,
    role: string,
    status: string,
    createdAt: string,
    lastLogin: string,
    orders: int,
    totalSpent: int,
    avatar: string)

  /** The columns the table can be sorted by (`createdAt` is the initial one). */
  datatype SortField = Name | Email | Role | Status | CreatedAt

  datatype Direction = Asc | Desc

  datatype BulkAction = Delete | Activate | Deactivate

  /** The search, role and status tests; the phone is searched only when
      the user has one. */
  predicate UserMatches(u: User, query: string, role: string, status: string)
  {
    var q := Lower(query);
    && (|| Contains(Lower(u.name), q)
        || Contains(Lower(u.email), q)
        || (u.phone.Some? && Contains(Lower(u.phone.value), q)))
    && (role == "all" || u.role == role)
    && (status == "all" || u.status == status)
  }

  function MatchesBy(query: string, role: string, status: string): User -> bool
  {
    u => UserMatches(u, query, role, status)
  }

  /** The value a column sorts on; names and e-mails are compared lower-cased. */
  function SortValue(u: User, field: SortField): string
  {
    match field
    case Name => Lower(u.name)
    case Email => Lower(u.email)
    case Role => u.role
    case Status => u.status
    case CreatedAt => u.createdAt
  }

  /** The table's comparator. */
  function CompareUsers(field: SortField, dir: Direction, a: User, b: User): int
  {
    var x, y := SortValue(a, field), SortValue(b, field);
    if LexLess(x, y) then (if dir == Asc then -1 else 1)
    else if LexLess(y, x) then (if dir == Asc then 1 else -1)
    else 0
  }

  function BeforeBy(field: SortField, dir: Direction): (User, User) -> bool
  {
    (a, b) => CompareUsers(field, dir, a, b) <= 0
  }

  /** `filteredUsers`: exactly the users that pass the filters, each once,
      sorted by the selected column. */
  function FilteredUsers(users: seq<User>, query: string, role: string, status: string,
                         field: SortField, dir: Direction): (r: seq<User>)
    ensures multiset(r) == multiset(Filter(users, MatchesBy(query, role, status)))
    ensures forall u :: u in r <==> u in users && UserMatches(u, query, role, status)
  {
    var kept := Filter(users, MatchesBy(query, role, status));
    var r := Sort(kept, BeforeBy(field, dir));
    assert forall u :: u in r <==> u in kept by {
      forall u ensures u in r <==> u in kept {
        assert u in r <==> u in multiset(r);
        assert u in kept <==> u in multiset(kept);
      }
    }
    r
  }

  lemma BeforeTotalPreorder(field: SortField, dir: Direction, u: seq<User>)
    ensures TotalPreorderOn(u, BeforeBy(field, dir))
  {
    forall a, b | a in u && b in u
      ensures BeforeBy(field, dir)(a, b) || BeforeBy(field, dir)(b, a)
    {
      var x, y := SortValue(a, field), SortValue(b, field);
      assert BeforeBy(field, dir)(a, b) == (CompareUsers(field, dir, a, b) <= 0);
      assert BeforeBy(field, dir)(b, a) == (CompareUsers(field, dir, b, a) <= 0);
      LexLessIrreflexive(x);
      if x != y {
        LexLessTotal(x, y);
        if LexLess(x, y) {
          LexLessAsymmetric(x, y);
        } else {
          LexLessAsymmetric(y, x);
        }
      }
    }
    forall a, b, c | a in u && b in u && c in u && BeforeBy(field, dir)(a, b) && BeforeBy(field, dir)(b, c)
      ensures BeforeBy(field, dir)(a, c)
    {
      var x, y, z := SortValue(a, field), SortValue(b, field), SortValue(c, field);
      LexLessIrreflexive(x);
      LexLessIrreflexive(y);
      if x != y { LexLessTotal(x, y); }
      if y != z { LexLessTotal(y, z); }
      if x != z { LexLessTotal(x, z); }
      if LexLess(x, y) && LexLess(y, z) { LexLessTransitive(x, y, z); }
      if LexLess(y, x) && LexLess(z, y) { LexLessTransitive(z, y, x); }
      if LexLess(x, z) { LexLessAsymmetric(x, z); }
      if LexLess(z, x) { LexLessAsymmetric(z, x); }
    }
  }

  /** The rows are in column order: ascending for `Asc`, descending for `Desc`. */
  lemma FilteredUsersOrdered(users: seq<User>, query: string, role: string, status: string,
                             field: SortField, dir: Direction)
    ensures var r := FilteredUsers(users, query, role, status, field, dir);
      forall i, j :: 0 <= i < j < |r| ==>
        && (dir == Asc ==> !LexLess(SortValue(r[j], field), SortValue(r[i], field)))
        && (dir == Desc ==> !LexLess(SortValue(r[i], field), SortValue(r[j], field)))
  {
    var kept := Filter(users, MatchesBy(query, role, status));
    BeforeTotalPreorder(field, dir, kept);
    SortSorted(kept, BeforeBy(field, dir));
    var r := FilteredUsers(users, query, role, status, field, dir);
    forall i, j | 0 <= i < j < |r|
      ensures && (dir == Asc ==> !LexLess(SortValue(r[j], field), SortValue(r[i], field)))
              && (dir == Desc ==> !LexLess(SortValue(r[i], field), SortValue(r[j], field)))
    {
      assert BeforeBy(field, dir)(r[i], r[j]);
      var x, y := SortValue(r[i], field), SortValue(r[j], field);
      if LexLess(x, y) { LexLessAsymmetric(x, y); }
      if LexLess(y, x) { LexLessAsymmetric(y, x); }
    }
  }

  // ----- Column headers -----

  function Flip(dir: Direction): Direction
  {
    if dir == Asc then Desc else Asc
  }

  /** `handleSort`: the same column flips the direction, another column
      becomes the sort column, ascending. */
  function NextSort(field: SortField, dir: Direction, clicked: SortField): (r: (SortField, Direction))
    ensures r.0 == clicked
    ensures clicked == field ==> r.1 != dir
    ensures clicked != field ==> r.1 == Asc
  {
    if field == clicked then (field, Flip(dir)) else (clicked, Asc)
  }

  /** Clicking the same header twice restores the order. */
  lemma NextSortTwice(field: SortField, dir: Direction, clicked: SortField)
    ensures var (f, d) := NextSort(field, dir, clicked);
      NextSort(f, d, clicked) == (clicked, if clicked == field then dir else Desc)
  {
  }

  // ----- Selection -----

  /** `handleSelectUser`: removes every copy of a selected id, or appends an
      unselected one. */
  function Toggle(selected: seq<int>, id: int): (r: seq<int>)
    ensures (id in r) == (id !in selected)
    ensures forall x :: x != id ==> (x in r <==> x in selected)
    ensures id !in selected ==> r == selected + [id]
  {
    if id in selected then Filter(selected, x => x != id) else selected + [id]
  }

  /** Toggling an unselected id twice restores the selection exactly;
      toggling a selected id twice keeps the same ids selected, with that id
      moved to the end. */
  lemma {:induction false} ToggleTwice(selected: seq<int>, id: int)
    ensures id !in selected ==> Toggle(Toggle(selected, id), id) == selected
    ensures id in selected ==>
      && (forall x :: x in Toggle(Toggle(selected, id), id) <==> x in selected)
      && Toggle(Toggle(selected, id), id) == Filter(selected, x => x != id) + [id]
  {
    if id !in selected {
      var p := (x: int) => x != id;
      FilterAppend(selected, [id], p);
      FilterKeepsAll(selected, p);
      assert Filter([id], p) == [];
    }
  }

  function Ids(users: seq<User>): (r: seq<int>)
    ensures |r| == |users| && forall i :: 0 <= i < |r| ==> r[i] == users[i].id
  {
    seq(|users|, i requires 0 <= i < |users| => users[i].id)
  }

  /** `handleSelectAll`: the ids of the visible rows, in order, or nothing. */
  function SelectAll(visible: seq<User>, checked: bool): (r: seq<int>)
    ensures checked ==> r == Ids(visible)
    ensures !checked ==> r == []
  {
    if checked then Ids(visible) else []
  }

  /** The header checkbox: as many selected ids as visible rows, and some rows. */
  predicate AllSelectedBox(selected: seq<int>, visible: seq<User>)
  {
    |selected| == |visible| && |visible| > 0
  }

  /** Select-all ticks the header box exactly when rows are visible, and
      clearing it unticks the box. */
  lemma SelectAllBox(visible: seq<User>)
    ensures AllSelectedBox(SelectAll(visible, true), visible) <==> |visible| > 0
    ensures !AllSelectedBox(SelectAll(visible, false), visible)
  {
  }

  // ----- Bulk actions -----

  /** Activate / deactivate: exactly the selected users take the new
      status; positions, order and every other field are kept. */
  function SetStatus(users: seq<User>, selected: seq<int>, status: string): (r: seq<User>)
    ensures |r| == |users|
    ensures forall i :: 0 <= i < |r| ==>
      && r[i] == users[i].(status := r[i].status)
      && (users[i].id in selected ==> r[i].status == status)
      && (users[i].id !in selected ==> r[i] == users[i])
  {
    seq(|users|, i requires 0 <= i < |users| =>
      if users[i].id in selected then users[i].(status := status) else users[i])
  }

  function NotSelected(selected: seq<int>): User -> bool
  {
    (u: User) => u.id !in selected
  }

  /** Delete: exactly the users whose id is selected are removed; the rest
      keep their order. */
  function RemoveSelected(users: seq<User>, selected: seq<int>): (r: seq<User>)
    ensures forall u :: u in r <==> u in users && u.id !in selected
    ensures |r| == Count(users, NotSelected(selected))
  {
    FilterLength(users, NotSelected(selected));
    Filter(users, NotSelected(selected))
  }

  /** `handleBulkAction`: the new user list and selection. An unconfirmed
      delete changes nothing; every other outcome clears the selection. */
  function Bulk(users: seq<User>, selected: seq<int>, action: BulkAction, confirmed: bool): (r: (seq<User>, seq<int>))
    ensures action == Delete && !confirmed ==> r == (users, selected)
    ensures !(action == Delete && !confirmed) ==> r.1 == []
    ensures action != Delete ==> |r.0| == |users|
  {
    match action
    case Delete => if confirmed then (RemoveSelected(users, selected), []) else (users, selected)
    case Activate => (SetStatus(users, selected, "active"), [])
    case Deactivate => (SetStatus(users, selected, "inactive"), [])
  }

  /** The table's state. */
  class UserTableView {
    var users: seq<User>
    var searchQuery: string
    var filterRole: string
    var filterStatus: string
    var sortField: SortField
    var sortDirection: Direction
    var selectedUsers: seq<int>

    function Visible(): seq<User>
      reads this`users, this`searchQuery, this`filterRole, this`filterStatus, this`sortField, this`sortDirection
    {
      FilteredUsers(users, searchQuery, filterRole, filterStatus, sortField, sortDirection)
    }

    /** The header checkbox's `checked` attribute. */
    function SelectAllChecked(): bool
      reads this
    {
      AllSelectedBox(selectedUsers, Visible())
    }

    /** The table over the given users, unfiltered, newest first by creation
        date, nothing selected. */
    constructor(initialUsers: seq<User>)
      ensures users == initialUsers && searchQuery == "" && filterRole == "all" && filterStatus == "all"
      ensures sortField == CreatedAt && sortDirection == Desc && selectedUsers == []
    {
      users := initialUsers;
      searchQuery := "";
      filterRole := "all";
      filterStatus := "all";
      sortField := CreatedAt;
      sortDirection := Desc;
      selectedUsers := [];
    }

    method SetFilters(query: string, role: string, status: string)
      modifies this
      ensures searchQuery == query && filterRole == role && filterStatus == status
      ensures users == old(users) && sortField == old(sortField)
      ensures sortDirection == old(sortDirection) && selectedUsers == old(selectedUsers)
    {
      searchQuery, filterRole, filterStatus := query, role, status;
    }

    method HandleSort(field: SortField)
      modifies this`sortField, this`sortDirection
      ensures (sortField, sortDirection) == NextSort(old(sortField), old(sortDirection), field)
    {
      if sortField == field {
        sortDirection := if sortDirection == Asc then Desc else Asc;
      } else {
        sortField := field;
        sortDirection := Asc;
      }
    }

    method HandleSelectAll(checked: bool)
      modifies this`selectedUsers
      ensures selectedUsers == SelectAll(Visible(), checked)
    {
      selectedUsers := if checked then Ids(Visible()) else [];
    }

    method HandleSelectUser(userId: int)
      modifies this`selectedUsers
      ensures selectedUsers == Toggle(old(selectedUsers), userId)
    {
      selectedUsers := Toggle(selectedUsers, userId);
    }

    method HandleBulkAction(action: BulkAction, confirmed: bool)
      modifies this`users, this`selectedUsers
      ensures (users, selectedUsers) == Bulk(old(users), old(selectedUsers), action, confirmed)
    {
      match action {
        case Delete =>
          if confirmed {
            users := RemoveSelected(users, selectedUsers);
            selectedUsers := [];
          }
        case Activate =>
          users := SetStatus(users, selectedUsers, "active");
          selectedUsers := [];
        case Deactivate =>
          users := SetStatus(users, selectedUsers, "inactive");
          selectedUsers := [];
      }
    }
  }
}
