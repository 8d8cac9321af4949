/**
 * Helpers of the template manager: where a template lives in the store,
 * what its master file is called, the list → numbered dictionary →
 * key/value-record conversions used to report errors, and the mapping from
 * application types to the template's product variables.
 */
module TemplateStore {
  import opened Strings

  // ---------------------------------------------------------------- paths

  predicate NoSlash(s: string) {
    forall i :: 0 <= i < |s| ==> s[i] != '/'
  }

  /**
   * Python's `os.path.join` of two components: an absolute second component
   * replaces the first; otherwise a '/' separates them unless the first is
   * empty or already ends in one.
   */
  function PathJoin(a: string, b: string): (p: string)
    ensures 0 < |b| && b[0] == '/' ==> p == b
    ensures (0 == |b| || b[0] != '/') ==> EndsWith(p, b) && StartsWith(p, a)
    ensures (0 == |b| || b[0] != '/') && 0 < |a| && a[|a| - 1] != '/' ==> |p| == |a| + 1 + |b| && p[|a|] == '/'
  {
    if 0 < |b| && b[0] == '/' then b
    else if |a| == 0 || a[|a| - 1] == '/' then
      var p := a + b;
      assert p[..|a|] == a && p[|p| - |b|..] == b;
      p
    else
      var p := a + "/" + b;
      assert p[..|a|] == a && p[|p| - |b|..] == b;
      p
  }

  /** The text after the last '/', or the whole text when there is none. */
  function BaseName(p: string): (b: string)
    ensures NoSlash(b) && EndsWith(p, b)
    ensures |b| < |p| ==> p[|p| - |b| - 1] == '/'
  {
    if |p| == 0 then ""
    else if p[|p| - 1] == '/' then ""
    else
      var b := BaseName(p[..|p| - 1]) + [p[|p| - 1]];
      assert p[|p| - |b|..] == p[..|p| - 1][|p| - |b|..|p| - 1] + [p[|p| - 1]];
      b
  }

  /** The text before the last '/', without it; "" when there is no '/'. */
  function DirName(p: string): string {
    var b := BaseName(p);
    if |b| < |p| then p[..|p| - |b| - 1] else ""
  }

  /** Joining a slash-free name onto a directory is undone by DirName and BaseName. */
  lemma {:induction false} PathJoinSplit(dir: string, name: string)
    requires 0 < |dir| && dir[|dir| - 1] != '/'
    requires 0 < |name| && NoSlash(name)
    ensures BaseName(PathJoin(dir, name)) == name
    ensures DirName(PathJoin(dir, name)) == dir
  {
    var p := PathJoin(dir, name);
    assert p == dir + "/" + name;
    BaseNameOfSuffix(dir + "/", name);
    assert p[..|p| - |name| - 1] == dir;
  }

  /** A slash-free tail after a '/' is exactly the base name. */
  lemma {:induction false} BaseNameOfSuffix(head: string, name: string)
    requires 0 < |head| && head[|head| - 1] == '/'
    requires NoSlash(name)
    ensures BaseName(head + name) == name
    decreases |name|
  {
    var p := head + name;
    if |name| == 0 {
      assert p == head;
    } else {
      assert p[..|p| - 1] == head + name[..|name| - 1];
      BaseNameOfSuffix(head, name[..|name| - 1]);
      assert name == name[..|name| - 1] + [name[|name| - 1]];
    }
  }

  const MasterFileSuffix: string := ".tmpl"

  /** Joining onto a directory without a trailing '/' puts exactly one '/' between the parts. */
  lemma PathJoinPlain(a: string, b: string)
    ensures 0 < |a| && a[|a| - 1] != '/' && (|b| == 0 || b[0] != '/') ==> PathJoin(a, b) == a + "/" + b
  {
  }

  /** PathJoinSplit, for any arguments: a plain directory and a slash-free name split back apart. */
  lemma PathJoinSplitWhen(dir: string, name: string)
    ensures 0 < |dir| && dir[|dir| - 1] != '/' && 0 < |name| && NoSlash(name)
            ==> BaseName(PathJoin(dir, name)) == name && DirName(PathJoin(dir, name)) == dir
  {
    if 0 < |dir| && dir[|dir| - 1] != '/' && 0 < |name| && NoSlash(name) {
      PathJoinSplit(dir, name);
    }
  }

  /**
   * get_template_root_dir: the template's directory inside the store. For a
   * plain store path and a slash-free id, it is one level below the store
   * and named after the template.
   */
  function TemplateRootDir(store: string, templateId: string): (d: string)
    ensures 0 < |store| && store[|store| - 1] != '/' && (|templateId| == 0 || templateId[0] != '/')
            ==> d == store + "/" + templateId
    ensures 0 < |store| && store[|store| - 1] != '/' && 0 < |templateId| && NoSlash(templateId)
            ==> DirName(d) == store && BaseName(d) == templateId
  {
    PathJoinPlain(store, templateId);
    PathJoinSplitWhen(store, templateId);
    PathJoin(store, templateId)
  }

  /** get_master_template_file_name: the template id with the `.tmpl` suffix. */
  function MasterFileName(templateId: string): (f: string)
    ensures EndsWith(f, ".tmpl") && |f| == |templateId| + 5
  {
    var f := templateId + MasterFileSuffix;
    assert f[|f| - 5..] == MasterFileSuffix;
    f
  }

  /** The template id a master file name belongs to. */
  function TemplateIdOf(fileName: string): Option<string> {
    if EndsWith(fileName, MasterFileSuffix) then Some(fileName[..|fileName| - |MasterFileSuffix|]) else None
  }

  lemma MasterFileNameRoundTrip(templateId: string)
    ensures TemplateIdOf(MasterFileName(templateId)) == Some(templateId)
  {
    var f := MasterFileName(templateId);
    assert f[..|f| - |MasterFileSuffix|] == templateId;
  }

  /** The shape of a master file path inside a plain directory. */
  lemma MasterFileAtShape(dir: string, templateId: string)
    ensures 0 < |dir| && dir[|dir| - 1] != '/' && (|templateId| == 0 || templateId[0] != '/')
            ==> PathJoin(dir, MasterFileName(templateId)) == dir + "/" + templateId + ".tmpl"
  {
    var name := MasterFileName(templateId);
    if 0 < |dir| && dir[|dir| - 1] != '/' && (|templateId| == 0 || templateId[0] != '/') {
      assert name == templateId + ".tmpl";
      assert name[0] != '/';
      PathJoinPlain(dir, name);
      assert dir + "/" + name == dir + "/" + templateId + ".tmpl";
    }
  }

  /**
   * get_master_template_file_at: the master file of a template inside a
   * directory; with no directory it is the bare file name.
   */
  function MasterFileAt(dir: string, templateId: string): (f: string)
    ensures 0 < |dir| && dir[|dir| - 1] != '/' && (|templateId| == 0 || templateId[0] != '/')
            ==> f == dir + "/" + templateId + ".tmpl"
    ensures |dir| == 0 ==> f == templateId + ".tmpl"
  {
    MasterFileAtShape(dir, templateId);
    PathJoin(dir, MasterFileName(templateId))
  }

  /** The meta file's full path under a plain store path and a slash-free id. */
  lemma MetaFileShape(store: string, templateId: string)
    ensures 0 < |store| && store[|store| - 1] != '/' && 0 < |templateId| && NoSlash(templateId)
            ==> MasterFileAt(TemplateRootDir(store, templateId), templateId)
                == store + "/" + templateId + "/" + templateId + ".tmpl"
  {
    if 0 < |store| && store[|store| - 1] != '/' && 0 < |templateId| && NoSlash(templateId) {
      var root := TemplateRootDir(store, templateId);
      assert root[|root| - 1] == templateId[|templateId| - 1];
      assert root + "/" + templateId + ".tmpl"
             == store + "/" + templateId + "/" + templateId + ".tmpl";
    }
  }

  /**
   * get_template_meta_file: the three-part join of store, template id and
   * master file name, so the master file sits in the template's own
   * directory.
   */
  function TemplateMetaFile(store: string, templateId: string): (f: string)
    ensures f == PathJoin(PathJoin(store, templateId), MasterFileName(templateId))
    ensures 0 < |store| && store[|store| - 1] != '/' && 0 < |templateId| && NoSlash(templateId)
            ==> f == store + "/" + templateId + "/" + templateId + ".tmpl"
  {
    MetaFileShape(store, templateId);
    MasterFileAt(TemplateRootDir(store, templateId), templateId)
  }

  /**
   * The meta file sits in the template's root directory and its name gives
   * back the template id.
   */
  lemma MetaFileLocation(store: string, templateId: string)
    requires 0 < |store| && store[|store| - 1] != '/'
    requires 0 < |templateId| && NoSlash(templateId)
    ensures DirName(TemplateMetaFile(store, templateId)) == TemplateRootDir(store, templateId)
    ensures TemplateIdOf(BaseName(TemplateMetaFile(store, templateId))) == Some(templateId)
  {
    var root := TemplateRootDir(store, templateId);
    var name := MasterFileName(templateId);
    assert NoSlash(name) by {
      assert MasterFileSuffix == ".tmpl";
      forall i | 0 <= i < |name| ensures name[i] != '/' {
        if i < |templateId| { assert name[i] == templateId[i]; }
      }
    }
    assert root == store + "/" + templateId;
    PathJoinSplit(root, name);
    MasterFileNameRoundTrip(templateId);
  }

  /** The paths the test suite asserts. */
  lemma PathExamples()
    ensures MasterFileName("template_id") == "template_id.tmpl"
    ensures MasterFileAt("/tmp", "template_id") == "/tmp/template_id.tmpl"
  {
  }

  // ---------------------------------------------------------------- conversions

  /** convert_list_to_dic: the i-th element (from 0) under key i + 1, in list order. */
  function ConvertListToDic<V>(xs: seq<V>): (d: seq<(int, V)>)
    ensures |d| == |xs|
    ensures forall i :: 0 <= i < |d| ==> d[i] == (i + 1, xs[i])
  {
    if |xs| == 0 then []
    else
      var rest := ConvertListToDic(xs[..|xs| - 1]);
      rest + [(|xs|, xs[|xs| - 1])]
  }

  /** The values of a numbered dictionary, in order. */
  function DicValues<V>(d: seq<(int, V)>): (xs: seq<V>)
    ensures |xs| == |d|
    ensures forall i :: 0 <= i < |d| ==> xs[i] == d[i].1
  {
    if |d| == 0 then [] else [d[0].1] + DicValues(d[1..])
  }

  lemma ListToDicRoundTrip<V>(xs: seq<V>)
    ensures DicValues(ConvertListToDic(xs)) == xs
  {
  }

  /** One `{'key': k, 'value': v}` record. */
  datatype Kvp<V> = Kvp(key: int, value: V)

  /** convert_to_kvp: one record per dictionary entry, in the dictionary's order. */
  function ConvertToKvp<V>(d: seq<(int, V)>): (r: seq<Kvp<V>>)
    ensures |r| == |d|
    ensures forall i :: 0 <= i < |r| ==> r[i].key == d[i].0 && r[i].value == d[i].1
  {
    if |d| == 0 then [] else [Kvp(d[0].0, d[0].1)] + ConvertToKvp(d[1..])
  }

  /** The dictionary a list of records describes. */
  function FromKvp<V>(r: seq<Kvp<V>>): (d: seq<(int, V)>)
    ensures |d| == |r|
    ensures forall i :: 0 <= i < |d| ==> d[i] == (r[i].key, r[i].value)
  {
    if |r| == 0 then [] else [(r[0].key, r[0].value)] + FromKvp(r[1..])
  }

  lemma KvpRoundTrip<V>(d: seq<(int, V)>)
    ensures FromKvp(ConvertToKvp(d)) == d
  {
  }

  /** get_template_errors with kvp: the error messages numbered from 1, in order. */
  function ErrorsAsKvp(errors: seq<string>): (r: seq<Kvp<string>>)
    ensures |r| == |errors|
    ensures forall i :: 0 <= i < |r| ==> r[i] == Kvp(i + 1, errors[i])
  {
    ConvertToKvp(ConvertListToDic(errors))
  }

  /** The conversions the test suite asserts. */
  lemma ConversionExamples()
    ensures ConvertListToDic(["a", "b"]) == [(1, "a"), (2, "b")]
    ensures ConvertToKvp([(1, "a"), (2, "b")]) == [Kvp(1, "a"), Kvp(2, "b")]
  {
  }

  // ---------------------------------------------------------------- product variables

  /** Application instance types a customer may order. */
  datatype AppType = CmDuplex | CmEss | Wdc | OtherApp(name: string)

  /** The product variables the template is rendered with. */
  datatype ProductVariable = ProductCm | ProductWin

  predicate IsCm(a: AppType) {
    a == CmDuplex || a == CmEss
  }

  /**
   * convert_application_instance_type_list_to_template_variables: the CM
   * variable for any CM flavour, the WIN variable for WDC.
   */
  function ConvertAppTypes(products: seq<AppType>): (vars: set<ProductVariable>)
    ensures ProductCm in vars <==> exists i :: 0 <= i < |products| && IsCm(products[i])
    ensures ProductWin in vars <==> exists i :: 0 <= i < |products| && products[i] == Wdc
  {
    if |products| == 0 then {}
    else
      var rest := ConvertAppTypes(products[1..]);
      var here := (if IsCm(products[0]) then {ProductCm} else {})
                  + (if products[0] == Wdc then {ProductWin} else {});
      assert forall i :: 0 < i < |products| ==> products[i] == products[1..][i - 1];
      assert (exists i :: 0 <= i < |products[1..]| && IsCm(products[1..][i]))
             ==> exists i :: 0 <= i < |products| && IsCm(products[i]) by {
        if exists i :: 0 <= i < |products[1..]| && IsCm(products[1..][i]) {
          var i :| 0 <= i < |products[1..]| && IsCm(products[1..][i]);
          assert IsCm(products[i + 1]);
        }
      }
      assert (exists i :: 0 <= i < |products[1..]| && products[1..][i] == Wdc)
             ==> exists i :: 0 <= i < |products| && products[i] == Wdc by {
        if exists i :: 0 <= i < |products[1..]| && products[1..][i] == Wdc {
          var i :| 0 <= i < |products[1..]| && products[1..][i] == Wdc;
          assert products[i + 1] == Wdc;
        }
      }
      here + rest
  }

  /** Ordering more products never removes a variable: the result of a concatenation is the union. */
  lemma ConvertAppTypesAppend(a: seq<AppType>, b: seq<AppType>)
    ensures ConvertAppTypes(a + b) == ConvertAppTypes(a) + ConvertAppTypes(b)
  {
    var ab := a + b;
    assert forall i :: 0 <= i < |a| ==> ab[i] == a[i];
    assert forall i :: 0 <= i < |b| ==> ab[|a| + i] == b[i];
    if exists i :: 0 <= i < |ab| && IsCm(ab[i]) {
      var i :| 0 <= i < |ab| && IsCm(ab[i]);
      if i >= |a| { assert b[i - |a|] == ab[i]; }
    }
    if exists i :: 0 <= i < |ab| && ab[i] == Wdc {
      var i :| 0 <= i < |ab| && ab[i] == Wdc;
      if i >= |a| { assert b[i - |a|] == ab[i]; }
    }
    var l, r := ConvertAppTypes(ab), ConvertAppTypes(a) + ConvertAppTypes(b);
    assert ProductCm in l <==> ProductCm in r;
    assert ProductWin in l <==> ProductWin in r;
    forall v ensures v in l <==> v in r {
      if v == ProductCm {} else { assert v == ProductWin; }
    }
  }

  /** The product lists the test suite asserts. */
  lemma ProductExamples()
    ensures ConvertAppTypes([CmDuplex, CmEss, Wdc]) == {ProductCm, ProductWin}
    ensures ProductCm in ConvertAppTypes([CmDuplex])
    ensures ProductCm in ConvertAppTypes([CmEss])
    ensures ProductWin in ConvertAppTypes([Wdc])
  {
    assert [CmDuplex, CmEss, Wdc][0] == CmDuplex;
    assert [CmDuplex, CmEss, Wdc][2] == Wdc;
    assert [CmDuplex][0] == CmDuplex;
    assert [CmEss][0] == CmEss;
    assert [Wdc][0] == Wdc;
  }
}
