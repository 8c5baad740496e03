/** `copyTemplateFiles`: the Terraform templates bundled on the classpath
    under `terraform/` are copied into the fresh workspace directory, and
    the application template falls back to a built-in text when it is not
    bundled. The classpath and the directory are maps from names to
    contents. */
module Templates {
  import opened Wrappers

  /** The templates copied one by one, in this order. */
  const TemplateNames: seq<string> :=
    ["provider.tf", "app_service.tf", "kafka.tf", "mongodb.tf",
     "mysql.tf", "postgresql.tf", "redis.tf", "variables.tf"]

  const AppTemplateName: string := "application.yml.tftpl"

  /** The application template written when none is bundled. */
  const BuiltinAppTemplate: string :=
    "spring:\n" +
    "  application:\n" +
    "    name: ${app_name}\n" +
    "  datasource:\n" +
    "    url: ${database_url}\n" +
    "    username: ${database_username}\n" +
    "    password: ${database_password}\n" +
    "  data:\n" +
    "    mongodb:\n" +
    "      uri: ${mongodb_uri}\n" +
    "  redis:\n" +
    "    host: ${redis_host}\n" +
    "    port: ${redis_port}\n" +
    "    password: ${redis_password}\n" +
    "  kafka:\n" +
    "    bootstrap-servers: ${kafka_bootstrap_servers}\n"

  /** The classpath resource a template is read from. */
  function ResourcePath(name: string): string
  {
    "terraform/" + name
  }

  /** `FileNotFoundException` for a template that is not bundled, and
      `Files.copy`'s `FileAlreadyExistsException` for a target that exists. */
  datatype CopyError = ResourceNotFound(name: string) | AlreadyExists(name: string)

  /** The exception's message; `Files.copy` reports the target path, the
      workspace directory `dirPath` resolved with the file name. */
  function Message(e: CopyError, dirPath: string): (m: string)
    ensures e.ResourceNotFound? ==> m == "Resource not found: " + e.name
    ensures e.AlreadyExists? ==> |dirPath| < |m| && m[..|dirPath|] == dirPath && m[|dirPath|..] == "/" + e.name
  {
    match e
    case ResourceNotFound(name) => "Resource not found: " + name
    case AlreadyExists(name) => dirPath + "/" + name
  }

  ghost predicate Distinct(names: seq<string>)
  {
    forall i, j :: 0 <= i < j < |names| ==> names[i] != names[j]
  }

  /** Copying each name of `names` in turn, stopping at the first failure. */
  function CopyEach(names: seq<string>, resources: map<string, string>, dir: map<string, string>)
    : Result<map<string, string>, CopyError>
  {
    if names == [] then Ok(dir)
    else if ResourcePath(names[0]) !in resources then Err(ResourceNotFound(names[0]))
    else if names[0] in dir then Err(AlreadyExists(names[0]))
    else CopyEach(names[1..], resources, dir[names[0] := resources[ResourcePath(names[0])]])
  }

  /** The application template: copied when bundled (failing on an existing
      target), otherwise the built-in text is written, replacing any file. */
  function CopyAppTemplate(resources: map<string, string>, dir: map<string, string>)
    : Result<map<string, string>, CopyError>
  {
    if ResourcePath(AppTemplateName) in resources then
      if AppTemplateName in dir then Err(AlreadyExists(AppTemplateName))
      else Ok(dir[AppTemplateName := resources[ResourcePath(AppTemplateName)]])
    else Ok(dir[AppTemplateName := BuiltinAppTemplate])
  }

  function CopyTemplates(resources: map<string, string>, dir: map<string, string>)
    : Result<map<string, string>, CopyError>
  {
    match CopyEach(TemplateNames, resources, dir)
    case Err(e) => Err(e)
    case Ok(d) => CopyAppTemplate(resources, d)
  }

  method CopyTemplateFiles(resources: map<string, string>, dir: map<string, string>)
    returns (r: Result<map<string, string>, CopyError>)
    ensures r == CopyTemplates(resources, dir)
  {
    var files := dir;
    for k := 0 to |TemplateNames|
      invariant CopyEach(TemplateNames, resources, dir) == CopyEach(TemplateNames[k..], resources, files)
    {
      var name := TemplateNames[k];
      assert TemplateNames[k..][1..] == TemplateNames[k + 1..];
      if ResourcePath(name) !in resources {
        return Err(ResourceNotFound(name));
      }
      if name in files {
        return Err(AlreadyExists(name));
      }
      files := files[name := resources[ResourcePath(name)]];
    }
    if ResourcePath(AppTemplateName) in resources {
      if AppTemplateName in files {
        return Err(AlreadyExists(AppTemplateName));
      }
      files := files[AppTemplateName := resources[ResourcePath(AppTemplateName)]];
    } else {
      files := files[AppTemplateName := BuiltinAppTemplate];
    }
    r := Ok(files);
  }

  /** Copying distinct names succeeds exactly when every one is bundled and
      none is in the directory yet; then each is added with the bundled
      contents and every other file is kept. */
  lemma {:induction false} CopyEachSucceeds(names: seq<string>, resources: map<string, string>,
                                            dir: map<string, string>)
    requires Distinct(names)
    ensures CopyEach(names, resources, dir).Ok? <==>
            forall n :: n in names ==> ResourcePath(n) in resources && n !in dir
    ensures CopyEach(names, resources, dir).Ok? ==>
            var d := CopyEach(names, resources, dir).value;
            d.Keys == dir.Keys + (set n | n in names) &&
            (forall n :: n in names ==> d[n] == resources[ResourcePath(n)]) &&
            (forall f :: f in dir ==> d[f] == dir[f])
    decreases |names|
  {
    if names != [] {
      var n := names[0];
      if ResourcePath(n) in resources && n !in dir {
        var rest := names[1..];
        assert Distinct(rest);
        assert n !in rest by {
          forall j | 0 <= j < |rest| ensures rest[j] != n {
            assert names[j + 1] == rest[j];
          }
        }
        CopyEachSucceeds(rest, resources, dir[n := resources[ResourcePath(n)]]);
        assert forall m :: m in names <==> m == n || m in rest;
      } else {
        assert names[0] in names;
      }
    }
  }

  /** A failure names the first name that is not bundled or already
      present, and says which of the two it is. */
  lemma {:induction false} CopyEachFails(names: seq<string>, resources: map<string, string>,
                                         dir: map<string, string>)
    requires Distinct(names)
    requires CopyEach(names, resources, dir).Err?
    ensures var e := CopyEach(names, resources, dir).error;
            exists i :: 0 <= i < |names| && e.name == names[i] &&
              (e.ResourceNotFound? <==> ResourcePath(names[i]) !in resources) &&
              (e.AlreadyExists? ==> names[i] in dir) &&
              forall j :: 0 <= j < i ==> ResourcePath(names[j]) in resources && names[j] !in dir
    decreases |names|
  {
    var n := names[0];
    if ResourcePath(n) in resources && n !in dir {
      var rest := names[1..];
      var dir' := dir[n := resources[ResourcePath(n)]];
      assert Distinct(rest);
      CopyEachFails(rest, resources, dir');
      var e := CopyEach(rest, resources, dir').error;
      var i :| 0 <= i < |rest| && e.name == rest[i] &&
        (e.ResourceNotFound? <==> ResourcePath(rest[i]) !in resources) &&
        (e.AlreadyExists? ==> rest[i] in dir') &&
        forall j :: 0 <= j < i ==> ResourcePath(rest[j]) in resources && rest[j] !in dir';
      assert names[i + 1] == rest[i] && rest[i] != n;
      forall j | 0 <= j < i + 1
        ensures ResourcePath(names[j]) in resources && names[j] !in dir
      {
        if j > 0 {
          assert names[j] == rest[j - 1];
        }
      }
    }
  }

  lemma TemplateNamesDistinct()
    ensures Distinct(TemplateNames)
  {
  }

  /** The whole copy succeeds exactly when all eight templates are bundled
      and absent from the directory, and a bundled application template is
      absent too. */
  lemma CopyTemplatesSucceeds(resources: map<string, string>, dir: map<string, string>)
    ensures CopyTemplates(resources, dir).Ok? <==>
            (forall n :: n in TemplateNames ==> ResourcePath(n) in resources && n !in dir) &&
            (ResourcePath(AppTemplateName) in resources ==> AppTemplateName !in dir)
  {
    TemplateNamesDistinct();
    CopyEachSucceeds(TemplateNames, resources, dir);
    assert AppTemplateName !in TemplateNames;
  }

  /** After a successful copy every template is in place with its bundled
      contents, the application template holds the bundled text or else the
      built-in one, and every other file is kept. */
  lemma CopyTemplatesContents(resources: map<string, string>, dir: map<string, string>)
    requires CopyTemplates(resources, dir).Ok?
    ensures var d := CopyTemplates(resources, dir).value;
            d.Keys == dir.Keys + (set n | n in TemplateNames) + {AppTemplateName} &&
            (forall n :: n in TemplateNames ==>
               ResourcePath(n) in resources && d[n] == resources[ResourcePath(n)]) &&
            d[AppTemplateName] == (if ResourcePath(AppTemplateName) in resources
                                   then resources[ResourcePath(AppTemplateName)]
                                   else BuiltinAppTemplate) &&
            (forall f :: f in dir && f != AppTemplateName ==> d[f] == dir[f])
  {
    TemplateNamesDistinct();
    CopyEachSucceeds(TemplateNames, resources, dir);
    assert AppTemplateName !in TemplateNames;
  }

  /** A missing template is reported by name, with the message
      "Resource not found: <name>", and every template before it in the
      fixed order was bundled. */
  lemma MissingTemplateReported(resources: map<string, string>, dir: map<string, string>, dirPath: string)
    requires CopyTemplates(resources, dir).Err?
    requires CopyTemplates(resources, dir).error.ResourceNotFound?
    ensures var name := CopyTemplates(resources, dir).error.name;
            Message(CopyTemplates(resources, dir).error, dirPath) == "Resource not found: " + name &&
            exists i :: 0 <= i < |TemplateNames| && TemplateNames[i] == name &&
              ResourcePath(name) !in resources &&
              forall k :: 0 <= k < i ==> ResourcePath(TemplateNames[k]) in resources
  {
    TemplateNamesDistinct();
    CopyEachFails(TemplateNames, resources, dir);
  }
}
