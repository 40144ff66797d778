/** Tag composition, as `attach` and `instance` build a logger's namespace,
    and the parsers that take a tag apart again. */
module Tags {
  import opened Js
  import Text

  /** The tag static `attach` builds: `${prefix}:${suffix}`, where a nullish
      prefix becomes the type's default prefix and a nullish suffix the
      class name. An empty string is kept in either position. */
  function ClassTag(defaultPrefix: Value, clsName: string, prefix: Value, suffix: Value): (tag: string)
    ensures ':' in tag
    ensures |tag| == |Render(IfNullish(prefix, defaultPrefix))| + 1 + |Render(IfNullish(suffix, Str(clsName)))|
  {
    var root := Render(IfNullish(prefix, defaultPrefix));
    assert (root + ":" + Render(IfNullish(suffix, Str(clsName))))[|root|] == ':';
    root + ":" + Render(IfNullish(suffix, Str(clsName)))
  }

  /** The tag static `instance` builds: `${prefix}:${name}`, where any falsy
      prefix becomes the default prefix, followed by `[${data}]` only when
      `data` is truthy. */
  function InstanceTag(defaultPrefix: Value, ctorName: string, prefix: Value, data: Value): (tag: string)
    ensures ':' in tag
    ensures |tag| == |Render(Or(prefix, defaultPrefix))| + 1 + |ctorName| + (if Truthy(data) then |data.s| + 2 else 0)
  {
    var base := Render(Or(prefix, defaultPrefix)) + ":" + ctorName;
    assert base[|Render(Or(prefix, defaultPrefix))|] == ':';
    if Truthy(data) then
      assert (base + "[" + Render(data) + "]")[|Render(Or(prefix, defaultPrefix))|] == ':';
      base + "[" + Render(data) + "]"
    else
      base
  }

  /** Splits a tag at its first colon into namespace root and the rest. */
  function SplitTag(tag: string): (r: Option<(string, string)>)
    ensures r.Some? ==> tag == r.value.0 + ":" + r.value.1 && ':' !in r.value.0
    ensures r.None? <==> ':' !in tag
  {
    var i := Text.IndexOf(tag, ':');
    if i < |tag| then
      assert tag == tag[..i] + ":" + tag[i + 1..];
      Some((tag[..i], tag[i + 1..]))
    else
      None
  }

  /** Splits the part after the colon into a name and, when it has the form
      `name[data]` with no `[` in the name, the data. */
  function SplitData(rest: string): (r: (string, Option<string>))
    ensures r.1.Some? ==> rest == r.0 + "[" + r.1.value + "]" && '[' !in r.0
    ensures r.1.None? ==> r.0 == rest
    ensures r.1.None? <==> !(Text.IndexOf(rest, '[') + 1 < |rest| && rest[|rest| - 1] == ']')
  {
    var i := Text.IndexOf(rest, '[');
    if i + 1 < |rest| && rest[|rest| - 1] == ']' then
      assert rest == rest[..i] + "[" + rest[i + 1..|rest| - 1] + "]";
      (rest[..i], Some(rest[i + 1..|rest| - 1]))
    else
      (rest, None)
  }

  /** Round trip of the colon split, for a root without a colon. */
  lemma {:induction false} SplitTagJoin(root: string, rest: string)
    requires ':' !in root
    ensures SplitTag(root + ":" + rest) == Some((root, rest))
  {
    var tag := root + ":" + rest;
    Text.IndexOfAfter(root, ':', rest);
    assert tag[..|root|] == root;
    assert tag[|root| + 1..] == rest;
  }

  /** Round trip of the data split, for a name without a `[`. */
  lemma {:induction false} SplitDataJoin(name: string, data: Option<string>)
    requires '[' !in name
    ensures SplitData(if data.Some? then name + "[" + data.value + "]" else name) == (name, data)
  {
    if data.Some? {
      var rest := name + "[" + data.value + "]";
      Text.IndexOfAfter(name, '[', data.value + "]");
      assert rest == name + "[" + (data.value + "]");
      assert rest[..|name|] == name;
      assert rest[|name| + 1..|rest| - 1] == data.value;
    } else {
      var i := Text.IndexOf(name, '[');
      assert i == |name|;
    }
  }

  /** A class tag splits back into the resolved prefix and the resolved
      suffix: the prefix falls back to the default only when nullish, the
      suffix to the class name only when nullish. */
  lemma {:induction false} ClassTagParts(defaultPrefix: Value, clsName: string, prefix: Value, suffix: Value)
    requires ':' !in Render(IfNullish(prefix, defaultPrefix))
    ensures var parts := SplitTag(ClassTag(defaultPrefix, clsName, prefix, suffix));
      && parts.Some?
      && parts.value.0 == (if Nullish(prefix) then Render(defaultPrefix) else prefix.s)
      && parts.value.1 == (if Nullish(suffix) then clsName else suffix.s)
  {
    SplitTagJoin(Render(IfNullish(prefix, defaultPrefix)), Render(IfNullish(suffix, Str(clsName))));
  }

  /** The part of an instance tag after the colon: the name, then the data
      in brackets when it is truthy. */
  function InstanceRest(ctorName: string, data: Value): string {
    if Truthy(data) then ctorName + "[" + data.s + "]" else ctorName
  }

  lemma InstanceTagShape(defaultPrefix: Value, ctorName: string, prefix: Value, data: Value)
    ensures InstanceTag(defaultPrefix, ctorName, prefix, data)
         == Render(Or(prefix, defaultPrefix)) + ":" + InstanceRest(ctorName, data)
  {
    if Truthy(data) {
      var root := Render(Or(prefix, defaultPrefix));
      assert root + ":" + ctorName + "[" + data.s + "]" == root + ":" + (ctorName + "[" + data.s + "]");
    }
  }

  /** An instance tag splits back into the resolved prefix, the class name
      and the data: the prefix falls back to the default whenever falsy, and
      the data is present exactly when it was truthy. */
  lemma {:induction false} InstanceTagParts(defaultPrefix: Value, ctorName: string, prefix: Value, data: Value)
    requires ':' !in Render(Or(prefix, defaultPrefix))
    requires '[' !in ctorName
    ensures var parts := SplitTag(InstanceTag(defaultPrefix, ctorName, prefix, data));
      && parts.Some?
      && parts.value.0 == (if Truthy(prefix) then prefix.s else Render(defaultPrefix))
      && SplitData(parts.value.1) == (ctorName, if Truthy(data) then Some(data.s) else None)
  {
    InstanceTagShape(defaultPrefix, ctorName, prefix, data);
    SplitTagJoin(Render(Or(prefix, defaultPrefix)), InstanceRest(ctorName, data));
    SplitDataJoin(ctorName, if Truthy(data) then Some(data.s) else None);
  }

  /** Two class attaches write the same registry key only when they resolve
      to the same prefix and suffix (for prefixes without a colon). */
  lemma {:induction false} ClassTagInjective(
    d1: Value, n1: string, p1: Value, s1: Value,
    d2: Value, n2: string, p2: Value, s2: Value)
    requires ':' !in Render(IfNullish(p1, d1)) && ':' !in Render(IfNullish(p2, d2))
    ensures ClassTag(d1, n1, p1, s1) == ClassTag(d2, n2, p2, s2) <==>
      && Render(IfNullish(p1, d1)) == Render(IfNullish(p2, d2))
      && Render(IfNullish(s1, Str(n1))) == Render(IfNullish(s2, Str(n2)))
  {
    SplitTagJoin(Render(IfNullish(p1, d1)), Render(IfNullish(s1, Str(n1))));
    SplitTagJoin(Render(IfNullish(p2, d2)), Render(IfNullish(s2, Str(n2))));
  }

  /** With a colon inside a prefix, two different prefix/suffix pairs compose
      the same tag, so the later attach overwrites the earlier registry entry. */
  lemma ColonInPrefixCollides(defaultPrefix: Value)
    ensures ClassTag(defaultPrefix, "A", Str("app:x"), Str("y")) == ClassTag(defaultPrefix, "B", Str("app"), Str("x:y"))
  {
  }

  /** An instance without truthy data shares its registry key with the class
      attached under the same resolved prefix: both are `prefix:Name`. */
  lemma {:induction false} InstanceTagWithoutData(defaultPrefix: Value, name: string, prefix: Value, data: Value)
    requires !Truthy(data)
    ensures InstanceTag(defaultPrefix, name, prefix, data) == ClassTag(defaultPrefix, name, Or(prefix, defaultPrefix), Undefined)
  {
  }
}
