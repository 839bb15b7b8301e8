/** Path handling: the trailing-slash fixer, the table of request path
    templates and the filling of their `%s`/`%d` placeholders. */
module Paths {
  import opened PhpValues

  predicate EndsWithSlash(s: string)
  {
    |s| > 0 && s[|s| - 1] == '/'
  }

  /** What `fix_trailing_slash` decides to do before doing it. */
  datatype SlashAction = Keep | AddSlash | RemoveSlash

  /** `fix_trailing_slash(path, task)`: the task "ensure" adds a missing
      trailing slash, "prevent" removes one trailing slash, "toggle" does
      whichever of the two applies, and any other task changes nothing. */
  function FixTrailingSlash(path: string, task: string): (r: string)
    ensures task == "ensure" ==> EndsWithSlash(r) && path <= r && |r| <= |path| + 1
    ensures task == "prevent" ==> r + (if EndsWithSlash(path) then "/" else "") == path
    ensures task == "toggle" ==> |r| != |path|
    ensures task == "toggle" && EndsWithSlash(path) ==> r + "/" == path
    ensures task == "toggle" && !EndsWithSlash(path) ==> r == path + "/"
    ensures task !in {"ensure", "prevent", "toggle"} ==> r == path
  {
    var hasSlash := EndsWithSlash(path);
    var action :=
      if task == "ensure" then (if !hasSlash then AddSlash else Keep)
      else if task == "prevent" then (if hasSlash then RemoveSlash else Keep)
      else if task == "toggle" then (if hasSlash then RemoveSlash else AddSlash)
      else Keep;
    match action
    case AddSlash => path + "/"
    case RemoveSlash => path[..|path| - 1]
    case Keep => path
  }

  /** "ensure" is idempotent: a second application changes nothing, and a
      path that already ends in a slash is left as it is. */
  lemma EnsureIdempotent(path: string)
    ensures FixTrailingSlash(FixTrailingSlash(path, "ensure"), "ensure") == FixTrailingSlash(path, "ensure")
    ensures EndsWithSlash(path) ==> FixTrailingSlash(path, "ensure") == path
  {
    var once := FixTrailingSlash(path, "ensure");
    assert EndsWithSlash(once);
    if EndsWithSlash(path) {
      assert path <= once && |once| <= |path| + 1;
      assert once[|once| - 1] == '/';
    }
  }

  /** A path ends in two slashes. */
  predicate EndsWithTwoSlashes(s: string)
  {
    |s| >= 2 && s[|s| - 2] == '/' && s[|s| - 1] == '/'
  }

  /** "toggle" is an involution on every path that does not end in two
      slashes: applied twice it gives back the original. */
  lemma ToggleTwice(path: string)
    requires !EndsWithTwoSlashes(path)
    ensures FixTrailingSlash(FixTrailingSlash(path, "toggle"), "toggle") == path
  {
    var once := FixTrailingSlash(path, "toggle");
    if EndsWithSlash(path) {
      assert once + "/" == path;
      assert !EndsWithSlash(once) by {
        if |once| > 0 {
          assert once[|once| - 1] == path[|path| - 2];
        }
      }
      assert FixTrailingSlash(once, "toggle") == once + "/";
    } else {
      assert once == path + "/";
      assert EndsWithSlash(once);
      assert FixTrailingSlash(once, "toggle") + "/" == once;
    }
  }

  /** On a path ending in two slashes "toggle" removes one slash each time,
      so applying it twice does not give the original back. */
  lemma ToggleTwiceOnDoubleSlash()
    ensures FixTrailingSlash("a//", "toggle") == "a/"
    ensures FixTrailingSlash(FixTrailingSlash("a//", "toggle"), "toggle") == "a"
  {
    assert EndsWithSlash("a//");
    assert "a/" + "/" == "a//";
    assert EndsWithSlash("a/");
    assert "a" + "/" == "a/";
  }

  /** "prevent" removes exactly one slash: a path ending in two slashes
      still ends in one afterwards. */
  lemma PreventRemovesOneSlash(path: string)
    requires EndsWithSlash(path)
    ensures |FixTrailingSlash(path, "prevent")| == |path| - 1
    ensures |path| >= 2 && path[|path| - 2] == '/' ==> EndsWithSlash(FixTrailingSlash(path, "prevent"))
  {
    var r := FixTrailingSlash(path, "prevent");
    assert r + "/" == path;
    if |path| >= 2 && path[|path| - 2] == '/' {
      assert r[|r| - 1] == (r + "/")[|r| - 1];
    }
  }

  /** The slugs that `get_request_path` knows. */
  const Slugs: set<string> := {
    "entities", "entity", "entity_custom_fields", "entity_field",
    "entity_standard_fields", "entity_statuses", "login", "logout",
    "record", "records", "records_search", "related_record"
  }

  /** `get_request_path(slug)`: the path template of a known slug; nothing
      for any other slug. Every template is relative: it neither starts
      nor ends with a slash. */
  function GetRequestPath(slug: string): (r: Option<string>)
    ensures r.Some? <==> slug in Slugs
    ensures r.Some? ==> |r.value| > 0 && r.value[0] != '/' && !EndsWithSlash(r.value)
  {
    match slug
    case "entities" => Some("object/info")
    case "entity" => Some("object/info/%s")
    case "entity_custom_fields" => Some("object/%s/description/custom")
    case "entity_field" => Some("object/displayfield/%s/%s")
    case "entity_standard_fields" => Some("object/%s/description/standard")
    case "entity_statuses" => Some("object/status/%s")
    case "login" => Some("login")
    case "logout" => Some("logout")
    case "record" => Some("object/%s/%d")
    case "records" => Some("object/%s")
    case "records_search" => Some("object/%s/search")
    case "related_record" => Some("object/%s/%d/%s")
    case _ => None
  }

  /** The template as the callers use it: PHP's null for an unknown slug
      reads as the empty template. */
  function PathFor(slug: string): string
  {
    match GetRequestPath(slug)
    case Some(t) => t
    case None => ""
  }

  /** sprintf on a path template: each `%s` or `%d` takes the next argument,
      already in its text form (a record id is passed as its decimal text).
      The callers pass one argument per placeholder. */
  function Fill(template: string, args: seq<string>): string
  {
    if |template| == 0 then ""
    else if |template| >= 2 && template[0] == '%' && (template[1] == 's' || template[1] == 'd') then
      (if |args| > 0 then args[0] else "") + Fill(template[2..], if |args| > 0 then args[1..] else [])
    else [template[0]] + Fill(template[1..], args)
  }
}
