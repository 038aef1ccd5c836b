/** The in-memory UserService of demo-data/slow-code.js: a list of users searched by
    role, an unbounded cache keyed by user id, and a row-major pass over a table of
    numbers that applies an expensive per-item calculation. */
module SlowCode {
  import opened Collections

  datatype User = User(id: int, roles: seq<string>, data: string)

  /** Number of copies of the user's payload each cache entry carries. */
  const LARGE_DATA_COPIES := 10000

  /** A cache entry: the user's fields, the time of insertion and the copied payload. */
  datatype CacheEntry = CacheEntry(user: User, timestamp: int, largeData: seq<string>)

  function HasRole(role: string): User -> bool
  {
    (u: User) => role in u.roles
  }

  /** The users whose role list contains `role`, each once, in list order. This is
      the subsequence picked out by `Positions(users, HasRole(role))`. */
  lemma RoleSelection(users: seq<User>, role: string)
    ensures |Filter(users, HasRole(role))| == |Positions(users, HasRole(role))| <= |users|
    ensures StrictlyIncreasing(Positions(users, HasRole(role)))
    ensures forall j :: 0 <= j < |Positions(users, HasRole(role))| ==>
              Positions(users, HasRole(role))[j] < |users| &&
              Filter(users, HasRole(role))[j] == users[Positions(users, HasRole(role))[j]]
    ensures forall i :: 0 <= i < |users| ==> (role in users[i].roles <==> i in Positions(users, HasRole(role)))
  {
    FilterSelects(users, HasRole(role));
  }

  /** A user listing the role several times is still selected once per occurrence
      in the user list: the selection holds exactly as many copies of a matching user
      as the list does. */
  lemma RoleSelectionOnce(users: seq<User>, role: string, u: User)
    requires role in u.roles
    ensures multiset(Filter(users, HasRole(role)))[u] == multiset(users)[u]
  {
    CountKept(users, HasRole(role), u);
  }

  lemma {:induction false} CountKept(s: seq<User>, p: User -> bool, u: User)
    requires p(u)
    ensures multiset(Filter(s, p))[u] == multiset(s)[u]
  {
    if s != [] {
      var init := s[..|s| - 1];
      CountKept(init, p, u);
      assert s == init + [s[|s| - 1]];
    }
  }

  /** Storing `v` under `k` keeps every other key and its value, drops no key, and
      grows the key set by at most one. */
  lemma CacheSetSpec(m: map<int, CacheEntry>, k: int, v: CacheEntry)
    ensures k in m[k := v] && m[k := v][k] == v
    ensures forall x :: x in m && x != k ==> x in m[k := v] && m[k := v][x] == m[x]
    ensures m.Keys <= m[k := v].Keys
    ensures m[k := v].Keys == m.Keys + {k}
    ensures |m[k := v].Keys| <= |m.Keys| + 1
  {
    if k in m {
      assert m[k := v].Keys == m.Keys;
    } else {
      assert |m.Keys + {k}| == |m.Keys| + 1;
    }
  }

  /** The item results of the rows of `data`, row after row. */
  function FlattenMap(data: seq<seq<real>>, compute: real -> real): seq<real>
  {
    if data == [] then []
    else FlattenMap(data[..|data| - 1], compute) + MapItems(data[|data| - 1], compute)
  }

  function MapItems(xs: seq<real>, compute: real -> real): (ys: seq<real>)
    ensures |ys| == |xs|
    ensures forall k :: 0 <= k < |xs| ==> ys[k] == compute(xs[k])
  {
    seq(|xs|, k requires 0 <= k < |xs| => compute(xs[k]))
  }

  /** Total number of items in `data`. */
  function TotalLength(data: seq<seq<real>>): nat
  {
    if data == [] then 0 else TotalLength(data[..|data| - 1]) + |data[|data| - 1]|
  }

  /** One result per item. */
  lemma {:induction false} FlattenMapLength(data: seq<seq<real>>, compute: real -> real)
    ensures |FlattenMap(data, compute)| == TotalLength(data)
  {
    if data != [] {
      FlattenMapLength(data[..|data| - 1], compute);
    }
  }

  /** The item in row `i`, column `j` lands at position (items in the rows before
      `i`) + `j`, holding the calculation of that item: the results are in row-major
      order. */
  lemma {:induction false} FlattenMapAt(data: seq<seq<real>>, compute: real -> real, i: nat, j: nat)
    requires i < |data| && j < |data[i]|
    ensures TotalLength(data[..i]) + j < |FlattenMap(data, compute)|
    ensures FlattenMap(data, compute)[TotalLength(data[..i]) + j] == compute(data[i][j])
  {
    var n := |data| - 1;
    var init := data[..n];
    FlattenMapLength(data, compute);
    FlattenMapLength(init, compute);
    if i < n {
      FlattenMapAt(init, compute, i, j);
      assert init[..i] == data[..i];
    } else {
      assert data[..i] == init;
    }
  }

  class UserService {
    var users: seq<User>
    /** Keyed by user id; entries are never evicted. */
    var cache: map<int, CacheEntry>

    constructor()
      ensures users == [] && cache == map[]
    {
      users := [];
      cache := map[];
    }

    /** Scans every user's roles, stopping at the first match, and collects the users
        that hold `targetRole`. Neither field changes. */
    method FindUsersByRole(targetRole: string) returns (result: seq<User>)
      ensures result == Filter(users, HasRole(targetRole))
    {
      result := [];
      var i := 0;
      while i < |users|
        invariant 0 <= i <= |users|
        invariant result == Filter(users[..i], HasRole(targetRole))
      {
        assert users[..i + 1][..i] == users[..i] && users[..i + 1][i] == users[i];
        var roles := users[i].roles;
        var j := 0;
        while j < |roles|
          invariant 0 <= j <= |roles|
          invariant targetRole !in roles[..j]
          invariant result == Filter(users[..i], HasRole(targetRole))
        {
          if roles[j] == targetRole {
            result := result + [users[i]];
            break;
          }
          assert roles[..j + 1] == roles[..j] + [roles[j]];
          j := j + 1;
        }
        assert roles[..|roles|] == roles;
        i := i + 1;
      }
      assert users[..|users|] == users;
    }

    /** Stores the user under its id with the current time `now` and the payload
        copied `LARGE_DATA_COPIES` times, replacing any entry for that id. */
    method AddUserToCache(user: User, now: int)
      modifies this`cache
      ensures cache == old(cache)[user.id := CacheEntry(user, now, seq(LARGE_DATA_COPIES, _ => user.data))]
    {
      var largeData := seq(LARGE_DATA_COPIES, _ => user.data);
      cache := cache[user.id := CacheEntry(user, now, largeData)];
    }

    /** Applies `compute` to every item of every row, row after row. */
    method ProcessLargeDataset(data: seq<seq<real>>, compute: real -> real) returns (result: seq<real>)
      ensures result == FlattenMap(data, compute)
    {
      result := [];
      var i := 0;
      while i < |data|
        invariant 0 <= i <= |data|
        invariant result == FlattenMap(data[..i], compute)
      {
        assert data[..i + 1][..i] == data[..i] && data[..i + 1][i] == data[i];
        var j := 0;
        while j < |data[i]|
          invariant 0 <= j <= |data[i]|
          invariant result == FlattenMap(data[..i], compute) + MapItems(data[i][..j], compute)
        {
          assert MapItems(data[i][..j + 1], compute) == MapItems(data[i][..j], compute) + [compute(data[i][j])];
          result := result + [compute(data[i][j])];
          j := j + 1;
        }
        assert data[i][..|data[i]|] == data[i];
        i := i + 1;
      }
      assert data[..|data|] == data;
    }
  }
}
