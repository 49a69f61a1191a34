/**
 * What the device manager takes from its platform: the few Go library functions it calls on
 * strings and paths (strings.TrimPrefix, strings.Contains, strings.ToLower, path.Base), an
 * abstract filesystem holding the set of paths that exist, and the outcomes of the network
 * calls it makes (listening on a unix socket, dialling with a timeout, the registration RPC).
 */
module Platform {
  import opened Wrappers

  // ---------------------------------------------------------------------------------------
  // strings

  predicate HasPrefix(s: string, prefix: string) {
    prefix <= s
  }

  /** strings.TrimPrefix: `s` without a leading `prefix`, or `s` itself when it has none. */
  function TrimPrefix(s: string, prefix: string): (r: string)
    ensures HasPrefix(s, prefix) ==> prefix + r == s
    ensures !HasPrefix(s, prefix) ==> r == s
  {
    if prefix <= s then s[|prefix|..] else s
  }

  /** strings.Contains: `sub` occurs somewhere in `s`. */
  predicate Contains(s: string, sub: string) {
    exists i :: 0 <= i <= |s| && sub <= s[i..]
  }

  /**
   * Contains means being a contiguous slice: `sub` occurs in `s` iff it is `s[i..j]` for
   * some bounds, so the empty string occurs in every string and nothing longer than `s`
   * occurs in it.
   */
  lemma ContainsIffSlice(s: string, sub: string)
    ensures Contains(s, sub) <==> exists i, j :: 0 <= i <= j <= |s| && s[i..j] == sub
    ensures sub == [] ==> Contains(s, sub)
    ensures Contains(s, sub) ==> |sub| <= |s|
  {
    if Contains(s, sub) {
      var i :| 0 <= i <= |s| && sub <= s[i..];
      assert s[i..i + |sub|] == sub;
    }
    if exists i, j :: 0 <= i <= j <= |s| && s[i..j] == sub {
      var i, j :| 0 <= i <= j <= |s| && s[i..j] == sub;
      assert sub <= s[i..];
    }
    if sub == [] {
      assert sub <= s[0..];
    }
  }

  function LowerChar(c: char): char {
    if 'A' <= c <= 'Z' then (c as int + 32) as char else c
  }

  /**
   * strings.ToLower, restricted to the ASCII letters: each upper-case letter becomes its
   * lower-case form, every other character is kept, and no upper-case letter is left.
   */
  function ToLower(s: string): (r: string)
    ensures |r| == |s|
    ensures forall i :: 0 <= i < |s| && 'A' <= s[i] <= 'Z' ==> r[i] as int == s[i] as int + 32
    ensures forall i :: 0 <= i < |s| && !('A' <= s[i] <= 'Z') ==> r[i] == s[i]
    ensures forall i :: 0 <= i < |r| ==> !('A' <= r[i] <= 'Z')
  {
    seq(|s|, i requires 0 <= i < |s| => LowerChar(s[i]))
  }

  // ---------------------------------------------------------------------------------------
  // path.Base

  function TrimTrailingSlashes(p: string): (r: string)
    ensures r <= p
    ensures r == [] || r[|r| - 1] != '/'
    ensures forall k :: |r| <= k < |p| ==> p[k] == '/'
  {
    if |p| > 0 && p[|p| - 1] == '/' then TrimTrailingSlashes(p[..|p| - 1]) else p
  }

  /** The part of `p` after its last '/', all of `p` if it has none. */
  function AfterLastSlash(p: string): (r: string)
    ensures '/' !in r
    ensures |r| <= |p| && r == p[|p| - |r|..]
    ensures p != [] && p[|p| - 1] != '/' ==> r != []
    ensures |r| < |p| ==> p[|p| - |r| - 1] == '/'
  {
    if p == [] then []
    else if p[|p| - 1] == '/' then []
    else AfterLastSlash(p[..|p| - 1]) + [p[|p| - 1]]
  }

  /**
   * path.Base: the last element of a slash-separated path. Trailing slashes are ignored,
   * the empty path gives "." and a path of slashes only gives "/".
   */
  function Base(p: string): (r: string)
    ensures r != []
    ensures r == "/" || '/' !in r
    ensures p == "" ==> r == "."
    ensures r == "/" <==> p != "" && forall k :: 0 <= k < |p| ==> p[k] == '/'
    ensures p != "" && r != "/" ==>
              exists i, j :: 0 <= i <= j <= |p| && p[i..j] == r && (i == 0 || p[i - 1] == '/') &&
                             forall k :: j <= k < |p| ==> p[k] == '/'
  {
    if p == "" then "."
    else
      var q := TrimTrailingSlashes(p);
      if q == "" then "/"
      else
        var r := AfterLastSlash(q);
        assert p[|q| - |r|..|q|] == r by {
          assert q == p[..|q|];
        }
        r
  }

  lemma {:induction false} AfterLastSlashOfJoin(dir: string, name: string)
    requires dir == [] || dir[|dir| - 1] == '/'
    requires '/' !in name
    ensures AfterLastSlash(dir + name) == name
  {
    if name != [] {
      var init := name[..|name| - 1];
      assert (dir + name)[..|dir + name| - 1] == dir + init;
      AfterLastSlashOfJoin(dir, init);
      assert init + [name[|name| - 1]] == name;
    } else {
      assert dir + name == dir;
    }
  }

  /** The base of a file name joined onto a directory ending in '/' is the file name. */
  lemma BaseOfJoin(dir: string, name: string)
    requires dir == [] || dir[|dir| - 1] == '/'
    requires name != [] && '/' !in name
    ensures Base(dir + name) == name
  {
    assert (dir + name)[|dir + name| - 1] == name[|name| - 1];
    AfterLastSlashOfJoin(dir, name);
  }

  // ---------------------------------------------------------------------------------------
  // the filesystem

  /**
   * An abstract filesystem: the set of paths that exist, and the set of paths whose removal
   * fails with an error other than "does not exist" (a permission error, say).
   */
  class FileSystem {
    var present: set<string>
    const denied: set<string>

    constructor (present0: set<string>, denied0: set<string>)
      ensures present == present0 && denied == denied0
    {
      present := present0;
      denied := denied0;
    }

    /** os.Remove. */
    method Remove(path: string) returns (err: Option<Error>)
      modifies this
      ensures path in denied ==> err == Some(RemoveError(path)) && present == old(present)
      ensures path !in denied && path !in old(present) ==>
                err == Some(NotExist(path)) && present == old(present)
      ensures path !in denied && path in old(present) ==>
                err == None && present == old(present) - {path}
    {
      if path in denied {
        err := Some(RemoveError(path));
      } else if path !in present {
        err := Some(NotExist(path));
      } else {
        present := present - {path};
        err := None;
      }
    }

    /**
     * net.Listen("unix", path): binding creates the socket file; it fails when the path is
     * taken, or for a reason outside the model (`fails`).
     */
    method Listen(path: string, fails: bool) returns (err: Option<Error>)
      modifies this
      ensures (path in old(present) || fails) ==> err == Some(ListenError(path)) && present == old(present)
      ensures !(path in old(present) || fails) ==> err == None && present == old(present) + {path}
    {
      if path in present || fails {
        err := Some(ListenError(path));
      } else {
        present := present + {path};
        err := None;
      }
    }
  }

  // ---------------------------------------------------------------------------------------
  // the network

  /**
   * How the network calls of one Serve turn out: the listen on the plugin socket, the
   * blocking self-dial that checks the gRPC server is up (60 s timeout), the dial of the
   * kubelet socket (5 s timeout) and the registration RPC.
   */
  datatype Net = Net(listenFails: bool, selfDialFails: bool, kubeletDialFails: bool, registerFails: bool)
}
