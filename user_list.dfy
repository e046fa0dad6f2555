/**
 * The list view of the user-management screen: a case-insensitive search
 * over one chosen field, a column sort whose direction toggles on repeated
 * clicks, and the state cells (`filteredUsers`, `sortingConfig`, `searchBy`,
 * `searchText`, `modalType`, `selectedUser`) that its handlers overwrite.
 */
module UserList {
  import opened Common
  import opened Text

  /** `keyof User`: the columns a sort can be asked for. */
  datatype Key = NameKey | EmailKey | IdKey

  /** `'name' | 'email'`: the fields a search can run over. */
  type SearchKey = k: Key | k != IdKey witness NameKey

  /** `'asc' | 'dsc'`. */
  datatype Direction = Asc | Dsc

  datatype SortConfig = SortConfig(key: Key, direction: Direction)

  /** `'add' | 'edit' | 'delete'`; no modal is `None`. */
  datatype ModalKind = AddModal | EditModal | DeleteModal

  /** `user[key]`: the name and email are always there, the id may be absent. */
  function ValueOf(u: User, key: Key): Option<string> {
    match key
    case NameKey => Some(u.name)
    case EmailKey => Some(u.email)
    case IdKey => u.id
  }

  /** `user[filterBy] as string`. */
  function SearchValue(u: User, field: SearchKey): string {
    ValueOf(u, field).value
  }

  // ---------------------------------------------------------------------------
  // Search

  /** The filter test: the lowered field includes the lowered search text. */
  predicate MatchesSearch(u: User, text: string, field: SearchKey) {
    Includes(ToLower(SearchValue(u, field)), ToLower(text))
  }

  /** `users.filter(...)`: keep the matching users, in order. */
  function FilterUsers(users: seq<User>, text: string, field: SearchKey): (r: seq<User>)
    ensures |r| <= |users|
    ensures forall u :: u in r <==> u in users && MatchesSearch(u, text, field)
  {
    if users == [] then []
    else (if MatchesSearch(users[0], text, field) then [users[0]] else []) + FilterUsers(users[1..], text, field)
  }

  /** `filterOutSearchUsers(text, filterBy)` over the current `users`, which may be null. */
  function FilterOutSearchUsers(users: Option<seq<User>>, text: string, field: SearchKey): (r: seq<User>)
    ensures users.None? ==> r == []
    ensures users.Some? ==> |r| <= |users.value|
  {
    match users
    case None => []
    case Some(us) => FilterUsers(us, text, field)
  }

  /**
   * Soundness and completeness of the search: a user is in the result exactly
   * when it is one of `users` and its lowered field contains the lowered text.
   */
  lemma FilterOutSearchUsersExact(users: Option<seq<User>>, text: string, field: SearchKey)
    ensures forall u :: u in FilterOutSearchUsers(users, text, field) <==>
      users.Some? && u in users.value && ContainsSubstring(ToLower(SearchValue(u, field)), ToLower(text))
  {
    forall u: User {
      IncludesIsSubstring(ToLower(SearchValue(u, field)), ToLower(text));
    }
  }

  /** The search keeps the original order: filtering distributes over concatenation. */
  lemma {:induction false} FilterUsersConcat(a: seq<User>, b: seq<User>, text: string, field: SearchKey)
    ensures FilterUsers(a + b, text, field) == FilterUsers(a, text, field) + FilterUsers(b, text, field)
  {
    if a == [] {
      assert a + b == b;
    } else {
      assert (a + b)[0] == a[0] && (a + b)[1..] == a[1..] + b;
      FilterUsersConcat(a[1..], b, text, field);
    }
  }

  /** An empty search text keeps every user: the empty string is included in any field. */
  lemma {:induction false} FilterUsersEmptyText(users: seq<User>, field: SearchKey)
    ensures FilterUsers(users, "", field) == users
  {
    if users != [] {
      assert ToLower("") == "";
      IncludesEmpty(ToLower(SearchValue(users[0], field)));
      FilterUsersEmptyText(users[1..], field);
    }
  }

  // ---------------------------------------------------------------------------
  // Sort

  /** Line 57: the direction toggles when the same column is clicked again. */
  function NextDirection(config: SortConfig, key: Key): (d: Direction)
    ensures d == Dsc <==> config.key == key && config.direction == Asc
  {
    if config.key == key && config.direction == Asc then Dsc else Asc
  }

  /** Clicking the sorted column flips its direction; a new column starts ascending. */
  lemma NextDirectionToggles(config: SortConfig, key: Key)
    ensures config.key == key ==> NextDirection(config, key) != config.direction
    ensures config.key != key ==> NextDirection(config, key) == Asc
    ensures NextDirection(SortConfig(key, NextDirection(SortConfig(key, Asc), key)), key) == Asc
  {
  }

  /** `!value` is false: the value is present and not the empty string. */
  predicate Truthy(v: Option<string>) {
    v.Some? && v.value != ""
  }

  /** The lowered value a comparison looks at. */
  function Normalized(u: User, key: Key): string
    requires Truthy(ValueOf(u, key))
  {
    ToLower(ValueOf(u, key).value)
  }

  /** The comparator handed to `Array.prototype.sort` (lines 60-73). */
  function Compare(a: User, b: User, key: Key, direction: Direction): (r: int)
    ensures -1 <= r <= 1
    ensures !Truthy(ValueOf(a, key)) || !Truthy(ValueOf(b, key)) ==> r == 0
    ensures Truthy(ValueOf(a, key)) && Truthy(ValueOf(b, key)) ==>
      (r == 0 <==> Normalized(a, key) == Normalized(b, key))
  {
    var av, bv := ValueOf(a, key), ValueOf(b, key);
    if !Truthy(av) || !Truthy(bv) then 0
    else
      var an, bn := ToLower(av.value), ToLower(bv.value);
      LessTotal(an, bn);
      LessIrreflexive(an);
      if Less(an, bn) then (if direction == Asc then -1 else 1)
      else if Less(bn, an) then (if direction == Asc then 1 else -1)
      else 0
  }

  /**
   * For two present values the ascending comparator follows `<` on the lowered
   * values, and the descending comparator is its negation.
   */
  lemma CompareMeaning(a: User, b: User, key: Key)
    requires Truthy(ValueOf(a, key)) && Truthy(ValueOf(b, key))
    ensures Compare(a, b, key, Asc) == -1 <==> Less(Normalized(a, key), Normalized(b, key))
    ensures Compare(a, b, key, Asc) == 1 <==> Less(Normalized(b, key), Normalized(a, key))
    ensures Compare(a, b, key, Dsc) == -Compare(a, b, key, Asc)
    ensures Compare(b, a, key, Asc) == -Compare(a, b, key, Asc)
  {
    var an, bn := Normalized(a, key), Normalized(b, key);
    if Less(an, bn) { LessAsymmetric(an, bn); }
  }

  /** With a missing value the comparator is not an order: it is not transitive. */
  lemma CompareNotTransitiveWithMissing()
    ensures var a, b, c := User(None, "a", ""), User(None, "", ""), User(None, "b", "");
      Compare(a, b, NameKey, Asc) == 0 && Compare(b, c, NameKey, Asc) == 0 && Compare(a, c, NameKey, Asc) == -1
  {
  }

  /** Every user has a present, non-empty value for `key`. */
  ghost predicate AllTruthy(s: seq<User>, key: Key) {
    forall u :: u in s ==> Truthy(ValueOf(u, key))
  }

  /** No later element compares smaller than an earlier one. */
  ghost predicate SortedBy(s: seq<User>, key: Key, direction: Direction) {
    forall i, j :: 0 <= i < j < |s| ==> Compare(s[i], s[j], key, direction) <= 0
  }

  /** Ordered by lowered value: non-decreasing for `Asc`, non-increasing for `Dsc`. */
  ghost predicate OrderedBy(s: seq<User>, key: Key, direction: Direction)
    requires AllTruthy(s, key)
  {
    forall i, j :: 0 <= i < j < |s| ==>
      if direction == Asc then !Less(Normalized(s[j], key), Normalized(s[i], key))
      else !Less(Normalized(s[i], key), Normalized(s[j], key))
  }

  lemma CompareTransitive(a: User, b: User, c: User, key: Key, direction: Direction)
    requires Truthy(ValueOf(a, key)) && Truthy(ValueOf(b, key)) && Truthy(ValueOf(c, key))
    requires Compare(a, b, key, direction) <= 0 && Compare(b, c, key, direction) <= 0
    ensures Compare(a, c, key, direction) <= 0
  {
    var an, bn, cn := Normalized(a, key), Normalized(b, key), Normalized(c, key);
    LessTotal(an, bn);
    LessTotal(bn, cn);
    LessTotal(an, cn);
    if Less(an, bn) && Less(bn, cn) { LessTransitive(an, bn, cn); }
    if Less(cn, bn) && Less(bn, an) { LessTransitive(cn, bn, an); }
    if Less(an, cn) { LessAsymmetric(an, cn); }
    if Less(cn, an) { LessAsymmetric(cn, an); }
    if Less(an, bn) { LessAsymmetric(an, bn); }
    if Less(bn, cn) { LessAsymmetric(bn, cn); }
  }

  /** Insert `x` before the first element it does not compare after. */
  function Insert(x: User, s: seq<User>, key: Key, direction: Direction): (r: seq<User>)
    ensures multiset(r) == multiset(s) + multiset{x}
  {
    if s == [] then [x]
    else if Compare(x, s[0], key, direction) <= 0 then [x] + s
    else
      assert s == [s[0]] + s[1..];
      [s[0]] + Insert(x, s[1..], key, direction)
  }

  /**
   * `Array.prototype.sort` with the comparator, as a stable insertion sort.
   * The engine's own algorithm is not visible; any comparison sort agrees
   * with this one up to the order of elements the comparator calls equal.
   */
  function SortUsers(s: seq<User>, key: Key, direction: Direction): (r: seq<User>)
    ensures multiset(r) == multiset(s)
  {
    if s == [] then []
    else
      assert s == [s[0]] + s[1..];
      Insert(s[0], SortUsers(s[1..], key, direction), key, direction)
  }

  /** A head that compares before every element of a sorted tail keeps the list sorted. */
  lemma PrependSorted(h: User, t: seq<User>, key: Key, direction: Direction)
    requires SortedBy(t, key, direction)
    requires forall y :: y in t ==> Compare(h, y, key, direction) <= 0
    ensures SortedBy([h] + t, key, direction)
  {
  }

  lemma {:induction false} InsertSorted(x: User, s: seq<User>, key: Key, direction: Direction)
    requires Truthy(ValueOf(x, key)) && AllTruthy(s, key) && SortedBy(s, key, direction)
    ensures SortedBy(Insert(x, s, key, direction), key, direction)
  {
    if s == [] {
    } else if Compare(x, s[0], key, direction) <= 0 {
      forall y | y in s ensures Compare(x, y, key, direction) <= 0 {
        var j :| 0 <= j < |s| && s[j] == y;
        if j > 0 { CompareTransitive(x, s[0], s[j], key, direction); }
      }
      PrependSorted(x, s, key, direction);
    } else {
      var rest := Insert(x, s[1..], key, direction);
      assert SortedBy(s[1..], key, direction) by {
        forall i, j | 0 <= i < j < |s[1..]| ensures Compare(s[1..][i], s[1..][j], key, direction) <= 0 {
          assert s[1..][i] == s[i + 1] && s[1..][j] == s[j + 1];
        }
      }
      InsertSorted(x, s[1..], key, direction);
      CompareMeaning(x, s[0], key);
      forall y | y in rest ensures Compare(s[0], y, key, direction) <= 0 {
        assert y in multiset(rest);
        if y != x {
          assert y in multiset(s[1..]);
          var j :| 0 <= j < |s[1..]| && s[1..][j] == y;
          assert s[j + 1] == y;
        }
      }
      PrependSorted(s[0], rest, key, direction);
    }
  }

  lemma {:induction false} SortUsersSorted(s: seq<User>, key: Key, direction: Direction)
    requires AllTruthy(s, key)
    ensures SortedBy(SortUsers(s, key, direction), key, direction)
  {
    if s != [] {
      SortUsersSorted(s[1..], key, direction);
      var sorted := SortUsers(s[1..], key, direction);
      forall u | u in sorted ensures Truthy(ValueOf(u, key)) {
        assert u in multiset(sorted);
      }
      InsertSorted(s[0], sorted, key, direction);
    }
  }

  /**
   * When every user has a non-empty value for the column, the sorted list is
   * ordered by lowered value in the requested direction, and it is always a
   * permutation of its input.
   */
  lemma SortUsersOrdered(s: seq<User>, key: Key, direction: Direction)
    requires AllTruthy(s, key)
    ensures multiset(SortUsers(s, key, direction)) == multiset(s)
    ensures AllTruthy(SortUsers(s, key, direction), key)
    ensures OrderedBy(SortUsers(s, key, direction), key, direction)
  {
    var r := SortUsers(s, key, direction);
    SortUsersSorted(s, key, direction);
    forall u | u in r ensures Truthy(ValueOf(u, key)) {
      assert u in multiset(r);
    }
    forall i, j | 0 <= i < j < |r|
      ensures if direction == Asc then !Less(Normalized(r[j], key), Normalized(r[i], key))
              else !Less(Normalized(r[i], key), Normalized(r[j], key))
    {
      CompareMeaning(r[i], r[j], key);
    }
  }

  // ---------------------------------------------------------------------------
  // The component's state cells and handlers

  class ListView {
    var searchBy: SearchKey
    var searchText: string
    var modalType: Option<ModalKind>
    var selectedUser: Option<User>
    var filteredUsers: seq<User>
    var sortingConfig: SortConfig

    /** The initial state of the cells (lines 28-33). */
    constructor ()
      ensures searchBy == NameKey && searchText == ""
      ensures modalType == None && selectedUser == None
      ensures filteredUsers == [] && sortingConfig == SortConfig(NameKey, Asc)
    {
      searchBy := NameKey;
      searchText := "";
      modalType := None;
      selectedUser := None;
      filteredUsers := [];
      sortingConfig := SortConfig(NameKey, Asc);
    }

    /** Switching the search field clears the search text. */
    method HandleSearchFilter(filter: SearchKey)
      modifies this`searchText, this`searchBy
      ensures searchText == "" && searchBy == filter
    {
      searchText := "";
      searchBy := filter;
    }

    /** Typing in the search box stores the raw text. */
    method HandleChange(search: string)
      modifies this`searchText
      ensures searchText == search
    {
      searchText := search;
    }

    /**
     * Sorting by a column: the new direction toggles when the column is
     * clicked again, and the stored list is a sorted copy of the current one.
     */
    method HandleSort(key: Key)
      modifies this`sortingConfig, this`filteredUsers
      ensures sortingConfig.key == key
      ensures sortingConfig.direction == Dsc <==> old(sortingConfig) == SortConfig(key, Asc)
      ensures filteredUsers == SortUsers(old(filteredUsers), key, sortingConfig.direction)
      ensures multiset(filteredUsers) == multiset(old(filteredUsers))
      ensures AllTruthy(old(filteredUsers), key) ==>
        AllTruthy(filteredUsers, key) && OrderedBy(filteredUsers, key, sortingConfig.direction)
    {
      var direction := NextDirection(sortingConfig, key);
      sortingConfig := SortConfig(key, direction);
      var sortedUsers := SortUsers(filteredUsers, key, direction);
      if AllTruthy(filteredUsers, key) {
        SortUsersOrdered(filteredUsers, key, direction);
      }
      filteredUsers := sortedUsers;
    }

    /** The reset button: the full list, searching by name, with no text. */
    method ResetSearchUsers(users: Option<seq<User>>)
      modifies this`filteredUsers, this`searchBy, this`searchText
      ensures filteredUsers == (if users.Some? then users.value else [])
      ensures searchBy == NameKey && searchText == ""
    {
      filteredUsers := users.GetOr([]);
      searchBy := NameKey;
      searchText := "";
    }

    method OpenModal(kind: Option<ModalKind>, user: Option<User>)
      modifies this`modalType, this`selectedUser
      ensures modalType == kind && selectedUser == user
    {
      modalType := kind;
      selectedUser := user;
    }

    method CloseModal()
      modifies this`modalType, this`selectedUser
      ensures modalType == None && selectedUser == None
    {
      modalType := None;
      selectedUser := None;
    }

    /**
     * The effect on `users`, the debounced search text and `searchBy`
     * (lines 94-101): with a list present the visible list is recomputed from
     * scratch, which drops any earlier sort; with no list it is left alone.
     */
    method SearchEffect(users: Option<seq<User>>, debouncedSearchValue: string)
      modifies this`filteredUsers
      ensures users.None? ==> filteredUsers == old(filteredUsers)
      ensures users.Some? ==> filteredUsers == FilterOutSearchUsers(users, debouncedSearchValue, searchBy)
      ensures users.Some? && debouncedSearchValue == "" ==> filteredUsers == users.value
    {
      if users.Some? {
        if debouncedSearchValue != "" {
          var filterUsers := FilterOutSearchUsers(users, debouncedSearchValue, searchBy);
          filteredUsers := filterUsers;
        } else {
          FilterUsersEmptyText(users.value, searchBy);
          filteredUsers := users.value;
        }
      }
    }
  }
}
