/**
 * Rust's `Path::join` on a Unix host: a right-hand side that is absolute (starts with
 * `/`) replaces the left-hand side; otherwise a `/` separator is inserted unless the
 * left-hand side is empty or already ends in one. No component is inspected: `..`
 * and embedded separators pass through untouched.
 */
module Paths {
  import opened Strings

  predicate IsAbsolute(p: string)
  {
    |p| > 0 && p[0] == '/'
  }

  function Join(base: string, rhs: string): (r: string)
    ensures IsAbsolute(rhs) ==> r == rhs
    ensures !IsAbsolute(rhs) ==> IsPrefix(base, r)
  {
    if IsAbsolute(rhs) then rhs
    else if |base| > 0 && base[|base| - 1] != '/' then base + "/" + rhs
    else base + rhs
  }

  /** Joining a relative name below a base that does not end in `/` yields `base/name`. */
  lemma JoinRelative(base: string, rhs: string)
    requires !IsAbsolute(rhs)
    requires |base| > 0 && base[|base| - 1] != '/'
    ensures Join(base, rhs) == base + "/" + rhs
    ensures |Join(base, rhs)| == |base| + 1 + |rhs|
  {
  }

  /** Whatever the base, an absolute right-hand side leaves no trace of it. */
  lemma JoinAbsoluteDiscardsBase(base: string, base': string, rhs: string)
    requires IsAbsolute(rhs)
    ensures Join(base, rhs) == Join(base', rhs) == rhs
  {
  }
}
