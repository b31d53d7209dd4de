/**
 * `os.path.join` as POSIX Python defines it: an absolute component restarts
 * the path, and a separator is inserted unless the path so far is empty or
 * already ends with one.
 */
module Paths {
  import opened Text

  function Join(path: string, component: string): (r: string)
    ensures StartsWith(component, "/") ==> r == component
    ensures !StartsWith(component, "/") ==> r == path + component || r == path + "/" + component
    ensures EndsWith(r, component)
  {
    var r :=
      if StartsWith(component, "/") then component
      else if path == "" || EndsWith(path, "/") then path + component
      else path + "/" + component;
    assert r[|r| - |component|..] == component;
    r
  }
}
