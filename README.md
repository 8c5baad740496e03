# Provisioning orchestrator of terraform_test, modelled in Dafny

This project models the decision logic of a small provisioning service. The
service turns a Spring application's configuration into Terraform input, runs
Terraform against Azure and hands out Azure access tokens. The model covers
four parts of it.

- **Variable synthesis** (`TerraformService.createTerraformVars` and the four
  `process*Config` helpers). The configuration tree is classified into the
  services it asks for: Redis, Kafka, MongoDB, and MySQL or PostgreSQL.
  - Each detected service adds one block to `terraform.tfvars`, in a fixed
    order.
  - The tree is rewritten in place to point at the attributes of the
    resources Terraform will create.
  - The connection lines at the end of the file are read back from the
    rewritten tree.
  - The text is built step by step (methods over a string buffer and the
    configuration) and proved equal to a specification of the blocks.
- **Running Terraform**.
  - *Token mode* (`executeTerraformWithToken`) strips the inherited Azure
    credentials from each process environment and sets the token and flags.
    The environment is a class whose `remove`/`put` follow
    `ProcessEnvironment`: a `null` or NUL-bearing value is refused. Then
    `init` runs, then `apply`. The `apply` output is scanned line by line for
    Azure access-failure signatures, and its exit code is classified.
  - *Session mode* (`executeTerraform`) runs `init`, `apply` and then
    `terraform output -json`. The outputs are reconciled into the settings
    the application needs. The source builds these maps and drops them; the
    model returns them.
  - The container-image patch of `terraform.tfvars` and the copying of the
    bundled templates are also modelled.
- **Token acquisition** (`AuthService`). The service makes a graph-scope
  request, then a management-scope one. On failure it either recognises a
  conditional-access refusal or makes one recovery pass: clear the cache,
  then ask without a scope. A blank token is rejected. The CLI helper reads
  the output and error streams line by line before it looks at the exit code.
- **The token endpoint** (`AuthController.getAzureToken`). It maps the
  outcome to a 200, 401 or 500 reply. Lemmas relate it to the service: the
  refusal, and only the refusal, becomes a 401.

Processes become oracles. A Terraform process is a function from the command
and its environment to an exit code and output lines. A CLI process is a
function from the command to its streams and exit code, or to the exception
that starting or waiting for it raised. Clock readings, the server's
environment and the JSON reading of the outputs are parameters.

Modules:
- `Wrappers`: `Option`, `Result`.
- `Text`: Java's `contains`, `replace`, `trim`, decimal rendering and line joins.
- `ConfigTree`: the YAML/JSON tree as ordered maps (`LinkedHashMap`).
- `TerraformVars`, `VarsLayout`: variable synthesis and its properties.
- `ImagePatch`: the container-image patch.
- `Templates`: the template copy.
- `Reconcile`: the reconciliation of Terraform outputs.
- `Execution`: process environments, the apply scan and the two run modes.
- `AuthService`: token acquisition.
- `AuthController`: the token endpoint.

## Model

| member | source | states |
|---|---|---|
| Text.ContainsWhenOccurs | src/main/java/com/kt/terraform/service/TerraformService.java:565-572 | a text contains a pattern that occurs in it at some index |
| Text.MissingCharNotContained | src/main/java/com/kt/terraform/controller/AuthController.java:40-43 | a text lacking one of a pattern's characters does not contain the pattern |
| Text.ContainsSplitAfterNewline | src/main/java/com/kt/terraform/service/TerraformService.java:562 | a newline-free pattern occurs in `a + b`, with `a` ending in a newline, exactly when it occurs in `a` or in `b` |
| Text.OccursInLeft | src/main/java/com/kt/terraform/service/TerraformService.java:562 | an occurrence that fits inside `a` is an occurrence in `a + b` at the same index |
| Text.OccursInRight | src/main/java/com/kt/terraform/service/TerraformService.java:562 | an occurrence in `b` is an occurrence in `a + b` shifted by the length of `a` |
| Text.OccurrenceSplits | src/main/java/com/kt/terraform/service/TerraformService.java:562 | an occurrence of a newline-free pattern in `a + b`, with `a` ending in a newline, lies wholly in `a` or wholly in `b` |
| Text.ContainsIgnoresNewline | src/main/java/com/kt/terraform/service/TerraformService.java:562 | appending a newline adds no occurrence of a newline-free pattern, and removes none |
| Text.ReplaceWithoutOccurrence | src/main/java/com/kt/terraform/service/TerraformService.java:681 | `String.replace` leaves a text without the target unchanged |
| Text.ReplaceSkipsPrefix | src/main/java/com/kt/terraform/service/TerraformService.java:681 | `String.replace` copies the text before the first occurrence unchanged |
| Text.NoEarlyOccurrenceInTail | src/main/java/com/kt/terraform/service/TerraformService.java:681 | if nothing occurs in `s` before index `i`, nothing occurs in the tail of `s` before `i - 1` |
| Text.OccursInTail | src/main/java/com/kt/terraform/service/TerraformService.java:681 | an occurrence in the tail of `s` is an occurrence in `s` one index later |
| Text.ReplaceOnlyOccurrence | src/main/java/com/kt/terraform/service/TerraformService.java:681 | with a single occurrence, `String.replace` splices the replacement in at that index and keeps everything else |
| Text.OccursInSuffix | src/main/java/com/kt/terraform/service/TerraformService.java:681 | an occurrence in `s[m..]` at `k` is exactly an occurrence in `s` at `m + k` |
| Text.TrimStart | src/main/java/com/kt/terraform/service/AuthService.java:112 | the result is a suffix of the input that does not start with a character up to U+0020, and only such characters were dropped |
| Text.TrimEnd | src/main/java/com/kt/terraform/service/AuthService.java:112 | the result is a prefix of the input that does not end with a character up to U+0020, and only such characters were dropped |
| Text.TrimProperties | src/main/java/com/kt/terraform/service/AuthService.java:74 | `trim` never lengthens, leaves no trimmed character at either end, and is empty exactly when every character is trimmed |
| Text.TrimIdempotent | src/main/java/com/kt/terraform/service/AuthService.java:74 | trimming an already trimmed token changes nothing |
| Text.NatToString | src/main/java/com/kt/terraform/service/TerraformService.java:224 | the rendering of a timestamp is a non-empty run of decimal digits without a leading zero |
| Text.NatToStringRoundTrip | src/main/java/com/kt/terraform/service/TerraformService.java:508 | the decimal rendering of a natural number reads back as the same number |
| Text.ConcatSplit | src/main/java/com/kt/terraform/service/TerraformService.java:607-609 | joining lines without a separator distributes over concatenation of the line lists |
| Text.Terminated | src/main/java/com/kt/terraform/service/TerraformService.java:562 | newline-terminated lines give a text that is empty or ends in a newline |
| Text.JoinLines | src/main/java/com/kt/terraform/service/AuthService.java:90-95 | the loop appending every line yields exactly the separator-free join of the lines |
| Text.JoinTerminated | src/main/java/com/kt/terraform/service/AuthService.java:98-104 | the loop appending each line and a newline yields exactly the newline-terminated join |
| Text.TerminatedContains | src/main/java/com/kt/terraform/service/TerraformService.java:558-576 | a newline-free pattern occurs in the joined output exactly when it occurs in one of the lines |
| ConfigTree.KeysOf | src/main/java/com/kt/terraform/service/TerraformService.java:199 | the key list of a map has one key per entry, position for position |
| ConfigTree.GetFindsKeys | src/main/java/com/kt/terraform/service/TerraformService.java:231-275 | `get` finds a value exactly for the map's keys (`containsKey`) |
| ConfigTree.PutGetsValue | src/main/java/com/kt/terraform/service/TerraformService.java:291 | after `put`, the key maps to the new value |
| ConfigTree.PutKeepsOthers | src/main/java/com/kt/terraform/service/TerraformService.java:291 | `put` leaves every other key's value as it was |
| ConfigTree.PutKeyOrder | src/main/java/com/kt/terraform/service/TerraformService.java:318 | `put` keeps the key order of a `LinkedHashMap` and appends only a new key |
| ConfigTree.PutExisting | src/main/java/com/kt/terraform/service/TerraformService.java:335-338 | `put` on a present key replaces its value and changes nothing else, key order included |
| TerraformVars.RenderAllAppend | src/main/java/com/kt/terraform/service/TerraformService.java:200-225 | appending a block to the buffer appends exactly that block's text |
| TerraformVars.ProcessRedisConfig | src/main/java/com/kt/terraform/service/TerraformService.java:282-293 | the new configuration and buffer are those of the Redis step: a block and a placeholder map exactly when `redis` is present |
| TerraformVars.ProcessKafkaConfig | src/main/java/com/kt/terraform/service/TerraformService.java:295-304 | the new configuration and buffer are those of the Kafka step |
| TerraformVars.ProcessMongoDBConfig | src/main/java/com/kt/terraform/service/TerraformService.java:306-320 | the MongoDB step's outcome, its class-cast failure on a non-map `data` included |
| TerraformVars.ProcessDatabaseConfig | src/main/java/com/kt/terraform/service/TerraformService.java:322-348 | the database step's outcome, its class-cast failure on a non-map `datasource` included |
| TerraformVars.ProcessServices | src/main/java/com/kt/terraform/service/TerraformService.java:216-219 | the four helpers in order on the shared buffer and map give the services' outcome |
| TerraformVars.AppendHead | src/main/java/com/kt/terraform/service/TerraformService.java:202-213 | the buffer holds the authentication section (session mode only) and then the location section |
| TerraformVars.CreateTerraformVars | src/main/java/com/kt/terraform/service/TerraformService.java:199-279 | the file text and the rewritten configuration are those of the synthesis, and its failures are the synthesis's |
| VarsLayout.RedisStepEffect | src/main/java/com/kt/terraform/service/TerraformService.java:282-293 | the Redis step adds its block and replaces `redis` by the placeholder map exactly when `redis` is present, and changes no other key |
| VarsLayout.KafkaStepEffect | src/main/java/com/kt/terraform/service/TerraformService.java:295-304 | the Kafka step adds its block and replaces `kafka` wholesale exactly when `kafka` is present, and changes no other key |
| VarsLayout.MongoStepEffect | src/main/java/com/kt/terraform/service/TerraformService.java:306-320 | it fails exactly on a non-map `data`; otherwise it puts the placeholder `mongodb` into `data`, keeping its siblings, only when `data.mongodb` is present |
| VarsLayout.DatabaseStepEffect | src/main/java/com/kt/terraform/service/TerraformService.java:322-348 | it fails exactly on a non-map `datasource`; otherwise a MySQL or PostgreSQL URL adds that block and overwrites the datasource, and anything else changes nothing |
| VarsLayout.ServiceBlocksAppend | src/main/java/com/kt/terraform/service/TerraformService.java:216-219 | the blocks of two runs of services are the blocks of the first followed by those of the second |
| VarsLayout.ServiceBlocksExtend | src/main/java/com/kt/terraform/service/TerraformService.java:216-219 | a step that appends its optional block extends the blocks of the services detected so far |
| VarsLayout.RedisLayout | src/main/java/com/kt/terraform/service/TerraformService.java:216 | after the Redis step the buffer holds the head and the Redis block exactly when `redis` is present |
| VarsLayout.KafkaLayout | src/main/java/com/kt/terraform/service/TerraformService.java:217 | after the Kafka step the Kafka block follows the earlier blocks exactly when `kafka` is present |
| VarsLayout.MongoLayout | src/main/java/com/kt/terraform/service/TerraformService.java:218 | after the MongoDB step its block follows exactly when `data.mongodb` is present, and `datasource` is untouched |
| VarsLayout.DatabaseLayout | src/main/java/com/kt/terraform/service/TerraformService.java:219 | after the database step the blocks are those of every detected service |
| VarsLayout.ServicesLayout | src/main/java/com/kt/terraform/service/TerraformService.java:216-219 | the buffer after the four helpers is the head followed by one block per detected service, in detection order |
| VarsLayout.RewriteScope | src/main/java/com/kt/terraform/service/TerraformService.java:287-346 | the rewrite keeps the top-level keys and their order, and changes no key but `redis`, `kafka`, `data` and `datasource` |
| VarsLayout.LateStepsKeep | src/main/java/com/kt/terraform/service/TerraformService.java:306-348 | the MongoDB and database steps change only `data` and `datasource` |
| VarsLayout.RewriteRedisKafka | src/main/java/com/kt/terraform/service/TerraformService.java:287-302 | `redis` and `kafka`, when present, are replaced wholesale by their placeholder-only maps |
| VarsLayout.RewriteData | src/main/java/com/kt/terraform/service/TerraformService.java:315-318 | with `data.mongodb` present, `data` keeps its siblings and gains the placeholder `mongodb`; otherwise `data` is untouched |
| VarsLayout.DatasourceAfterStep | src/main/java/com/kt/terraform/service/TerraformService.java:322-348 | the database step leaves the datasource rewritten for the detected kind, or untouched when none is detected |
| VarsLayout.RewriteDatasource | src/main/java/com/kt/terraform/service/TerraformService.java:331-347 | a detected database overwrites only `url`, `username` and `password`; otherwise `datasource` is untouched |
| VarsLayout.EarlyStepsKeep | src/main/java/com/kt/terraform/service/TerraformService.java:282-304 | the Redis and Kafka steps leave every key other than `redis` and `kafka` as it was |
| VarsLayout.MongoStepKeeps | src/main/java/com/kt/terraform/service/TerraformService.java:306-320 | a successful MongoDB step leaves every key other than `data` as it was |
| VarsLayout.DatabaseStepKeeps | src/main/java/com/kt/terraform/service/TerraformService.java:322-348 | a successful database step leaves every key other than `datasource` as it was |
| VarsLayout.ServicesOutcome | src/main/java/com/kt/terraform/service/TerraformService.java:307-309 | the helpers fail exactly when `data` or `datasource` is present and not a map, naming the first such key |
| VarsLayout.ConnectionOutcome | src/main/java/com/kt/terraform/service/TerraformService.java:231-253 | the connection lines fail exactly on a `null` `datasource` or `data`, naming the one read first |
| VarsLayout.ServicesRewritten | src/main/java/com/kt/terraform/service/TerraformService.java:287-346 | after the helpers, `datasource` and `data` are `null` exactly when they were before |
| VarsLayout.SynthesizeOutcome | src/main/java/com/kt/terraform/service/TerraformService.java:199-279 | the synthesis fails exactly with the error the configuration's shape determines |
| VarsLayout.ServicesThenConnection | src/main/java/com/kt/terraform/service/TerraformService.java:199-279 | the synthesis error is the helpers' error if they fail, otherwise the connection-line error |
| VarsLayout.ConnectionAfterServices | src/main/java/com/kt/terraform/service/TerraformService.java:228-275 | once the helpers succeed, the connection lines read from the rewritten configuration fail with exactly the error the original configuration determines |
| VarsLayout.ServiceBlocksShape | src/main/java/com/kt/terraform/service/TerraformService.java:282-348 | one block per detected service, each stamped with that service's clock reading |
| VarsLayout.SynthesizeLayout | src/main/java/com/kt/terraform/service/TerraformService.java:199-279 | the file is the head, the detected services' blocks, the app block and the connection lines read from the rewritten configuration |
| VarsLayout.AuthBlockIffSession | src/main/java/com/kt/terraform/service/TerraformService.java:202-225 | the authentication block appears exactly in session mode and comes first; the location block follows it; the app block with an empty image comes just before the connection lines |
| VarsLayout.RankedExtend | src/main/java/com/kt/terraform/service/TerraformService.java:216-219 | appending a later service keeps the services in emission order |
| VarsLayout.RankedPieces | src/main/java/com/kt/terraform/service/TerraformService.java:216-219 | Redis, Kafka, MongoDB and then the database are in emission order |
| VarsLayout.DetectedRanked | src/main/java/com/kt/terraform/service/TerraformService.java:216-219 | detected services are in the order redis, kafka, mongodb, mysql/postgres, none twice |
| VarsLayout.OverwriteEffect | src/main/java/com/kt/terraform/service/TerraformService.java:335-337 | the datasource overwrite sets `url`, `username` and `password` and keeps every other datasource key |
| VarsLayout.DatasourceLinesOfRewrite | src/main/java/com/kt/terraform/service/TerraformService.java:231-242 | a rewritten datasource yields the three quoted lines carrying the placeholder URL, user and password of its kind |
| VarsLayout.RedisLinesOfRewrite | src/main/java/com/kt/terraform/service/TerraformService.java:256-267 | a rewritten `redis` yields the host, the unquoted port and the password lines with the resource references |
| VarsLayout.KafkaLinesOfRewrite | src/main/java/com/kt/terraform/service/TerraformService.java:270-275 | a rewritten `kafka` yields the bootstrap-servers line with the resource reference |
| VarsLayout.MongoLinesOfRewrite | src/main/java/com/kt/terraform/service/TerraformService.java:245-253 | a rewritten `data.mongodb` yields the URI line with the resource reference |
| VarsLayout.DatabaseLinesAfterServices | src/main/java/com/kt/terraform/service/TerraformService.java:219-242 | for a MySQL or PostgreSQL configuration the database lines carry the placeholder values, not the user's |
| VarsLayout.ServiceLinesAfterServices | src/main/java/com/kt/terraform/service/TerraformService.java:216-275 | the Redis, Kafka and MongoDB lines carry the resource references whenever those services are detected |
| ImagePatch.PatchWithoutPlaceholder | src/main/java/com/kt/terraform/service/TerraformService.java:681 | a text without the empty image line comes back unchanged |
| ImagePatch.PatchSplices | src/main/java/com/kt/terraform/service/TerraformService.java:681 | the only empty image line is replaced by the filled one at the same index and every other character is kept |
| ImagePatch.PlaceholderShape | src/main/java/com/kt/terraform/service/TerraformService.java:681 | the empty image line and the filled line share their first 19 characters |
| ImagePatch.FilledLineMismatch | src/main/java/com/kt/terraform/service/TerraformService.java:681 | no empty image line can start inside the filled line |
| ImagePatch.SpliceLeavesNoOccurrence | src/main/java/com/kt/terraform/service/TerraformService.java:681 | splicing the filled line over the only empty line leaves no empty line |
| ImagePatch.PatchClearsPlaceholder | src/main/java/com/kt/terraform/service/TerraformService.java:681 | after the patch no empty image line remains, for an image that is non-empty and free of `"` and `=` |
| ImagePatch.PatchTwiceIsPatchOnce | src/main/java/com/kt/terraform/service/TerraformService.java:678-683 | patching an already patched text with any image changes nothing |
| TfvarsImage.ValueClear | src/main/java/com/kt/terraform/service/TerraformService.java:205-213 | a value free of `container_image = "` followed by a closing text without `"` holds no empty image line |
| TfvarsImage.PlainLineClear | src/main/java/com/kt/terraform/service/TerraformService.java:228-273 | a line led by text without `c` around such a value holds no empty image line |
| TfvarsImage.AzureLineClear | src/main/java/com/kt/terraform/service/TerraformService.java:205-213 | an aligned Azure line (a 19-character lead ending in `"`) around such a value holds no empty image line |
| TfvarsImage.AuthClear | src/main/java/com/kt/terraform/service/TerraformService.java:202-208 | the authentication block is newline-terminated and holds no empty image line when the four values are free of the lead |
| TfvarsImage.LocationClear | src/main/java/com/kt/terraform/service/TerraformService.java:210-213 | the Azure configuration block is clear when the location and resource group are free of the lead |
| TfvarsImage.ServiceClear | src/main/java/com/kt/terraform/service/TerraformService.java:282-345 | every service block is newline-terminated and holds no empty image line |
| TfvarsImage.AppHeadClear | src/main/java/com/kt/terraform/service/TerraformService.java:222-224 | the app header and `app_name` line hold no empty image line |
| TfvarsImage.ConnectionClear | src/main/java/com/kt/terraform/service/TerraformService.java:227-273 | the connection section holds no empty image line when its names have no `c` and its values are free of the lead |
| TfvarsImage.RenderAllClear | src/main/java/com/kt/terraform/service/TerraformService.java:200-220 | blocks that are each clear render to a clear text |
| TfvarsImage.ConnectionNamesPlain | src/main/java/com/kt/terraform/service/TerraformService.java:228-273 | no connection line name contains `c` |
| TfvarsImage.AppLineOnce | src/main/java/com/kt/terraform/service/TerraformService.java:222-225 | the app block holds the empty image line once, right after its header |
| TfvarsImage.FileOnce | src/main/java/com/kt/terraform/service/TerraformService.java:222-225 | a clear text, the app block and a clear text hold the empty image line exactly once, at the app line |
| TfvarsImage.FilePatched | src/main/java/com/kt/terraform/service/TerraformService.java:681 | patching such a text puts the image into the app line and changes nothing else |
| TfvarsImage.LayoutHasPlaceholder | src/main/java/com/kt/terraform/service/TerraformService.java:222-225 | blocks laid out with the app block render to a text holding the empty image line |
| TfvarsImage.LayoutOnce | src/main/java/com/kt/terraform/service/TerraformService.java:200-273 | with clear blocks before it and a plain connection section, the empty image line occurs exactly once |
| TfvarsImage.LayoutPatched | src/main/java/com/kt/terraform/service/TerraformService.java:676-683 | under the same conditions the patch yields the rendering with the image in the app block |
| TfvarsImage.LayoutCleared | src/main/java/com/kt/terraform/service/TerraformService.java:676-683 | under the same conditions a patch with a quote- and `=`-free image leaves no empty image line |
| TfvarsImage.PrefixClean | src/main/java/com/kt/terraform/service/TerraformService.java:200-220 | the head and service blocks are clear when the location, resource group and environment values are free of the lead |
| TfvarsImage.SynthesizedParts | src/main/java/com/kt/terraform/service/TerraformService.java:200-273 | a successful synthesis is the head, the detected services' blocks, the empty-image app block and the connection section of the rewritten configuration |
| TfvarsImage.SynthesizedHasPlaceholder | src/main/java/com/kt/terraform/service/TerraformService.java:222-225 | the file `createTerraformVars` writes always holds the empty image line |
| TfvarsImage.SynthesizedClean | src/main/java/com/kt/terraform/service/TerraformService.java:200-273 | with values free of the lead, the synthesized blocks are clear before the app block and the connection section is plain |
| TfvarsImage.SynthesizedOnce | src/main/java/com/kt/terraform/service/TerraformService.java:83-96 | with values free of the lead, the written file holds the empty image line exactly once, so step 6 patches exactly the app line |
| TfvarsImage.PatchSynthesized | src/main/java/com/kt/terraform/service/TerraformService.java:83-96 | with values free of the lead, patching the written file is writing it with the image in the app block |
| TfvarsImage.PatchedSynthesizedCleared | src/main/java/com/kt/terraform/service/TerraformService.java:83-96 | with values free of the lead and a quote- and `=`-free image, no empty image line is left after step 6 |
| Templates.Message | src/main/java/com/kt/terraform/service/TerraformService.java:163-166 | a missing template is reported as "Resource not found: " followed by its name; an existing target by its path, the directory, `/` and the name |
| Templates.CopyTemplateFiles | src/main/java/com/kt/terraform/service/TerraformService.java:159-196 | the copy loop and the application template give the outcome of the copy specification |
| Templates.CopyEachSucceeds | src/main/java/com/kt/terraform/service/TerraformService.java:163-168 | copying succeeds exactly when every name is bundled and absent from the directory; then each gets its bundled contents and other files are kept |
| Templates.CopyEachFails | src/main/java/com/kt/terraform/service/TerraformService.java:163-168 | a failure names the first name that is missing or already present, and says which |
| Templates.TemplateNamesDistinct | src/main/java/com/kt/terraform/service/TerraformService.java:160-162 | the eight template names are distinct |
| Templates.CopyTemplatesSucceeds | src/main/java/com/kt/terraform/service/TerraformService.java:159-196 | the copy succeeds exactly when all eight templates are bundled and absent, and a bundled application template is absent too |
| Templates.CopyTemplatesContents | src/main/java/com/kt/terraform/service/TerraformService.java:159-196 | after a copy every template holds its bundled text, the application template the bundled or the built-in text, and other files are kept |
| Templates.MissingTemplateReported | src/main/java/com/kt/terraform/service/TerraformService.java:163-168 | a missing template is named in the message, and every template before it was bundled |
| Reconcile.ReconcileWith | src/main/java/com/kt/terraform/service/TerraformService.java:620-637 | each builder runs exactly when its trigger output is present |
| Reconcile.MySqlPreferred | src/main/java/com/kt/terraform/service/TerraformService.java:666-670 | with a MySQL server output the datasource URL is the MySQL JDBC URL, whatever PostgreSQL outputs exist |
| Reconcile.OutputObjectValue | src/main/java/com/kt/terraform/service/TerraformService.java:617 | the `value` field of an output object is the output's value |
| Reconcile.CorrectedDatasource | src/main/java/com/kt/terraform/service/TerraformService.java:663-676 | reading each output's value, the datasource is `jdbc:mysql://<server>/<database>` with the outputs' user and password |
| Reconcile.CorrectedRedis | src/main/java/com/kt/terraform/service/TerraformService.java:640-647 | reading each output's value, the Redis settings are the host, port and key outputs |
| Reconcile.AsWrittenUrlEmbedsObjects | src/main/java/com/kt/terraform/service/TerraformService.java:667 | as written, the URL starts `jdbc:mysql://{` and differs from the intended one |
| Execution.PutCheck | src/main/java/com/kt/terraform/service/TerraformService.java:474-484 | `put` accepts exactly a present value without NUL, and a refusal names the key |
| Execution.Environment.constructor | src/main/java/com/kt/terraform/service/TerraformService.java:462 | a process environment starts as a copy of the server's |
| Execution.Environment.Remove | src/main/java/com/kt/terraform/service/TerraformService.java:465-471 | `remove` drops the key and nothing else |
| Execution.Environment.Put | src/main/java/com/kt/terraform/service/TerraformService.java:474-484 | `put` stores an accepted value and leaves the environment unchanged on a refusal |
| Execution.Strip | src/main/java/com/kt/terraform/service/TerraformService.java:465-471 | the seven removals of token mode |
| Execution.SettleCredentials | src/main/java/com/kt/terraform/service/TerraformService.java:474-476 | the token, subscription and tenant puts, stopping at the first refusal |
| Execution.SettleFlags | src/main/java/com/kt/terraform/service/TerraformService.java:477-484 | the four flags and the two logging settings, stopping at the first refusal |
| Execution.ConfigureForToken | src/main/java/com/kt/terraform/service/TerraformService.java:462-484 | the environment of a token-mode process is the token environment of the inherited one, or the refusal it raises |
| Execution.TokenEnvAccepts | src/main/java/com/kt/terraform/service/TerraformService.java:474-484 | token mode refuses exactly a token, subscription or log path holding a NUL |
| Execution.TokenEnvDropsCredentials | src/main/java/com/kt/terraform/service/TerraformService.java:465-471 | `ARM_CLIENT_ID`, `ARM_CLIENT_SECRET` and `AZURE_CONFIG_DIR` are absent |
| Execution.TokenEnvSettings | src/main/java/com/kt/terraform/service/TerraformService.java:474-484 | each of the nine keys token mode sets carries its value |
| Execution.TokenEnvKeepsOthers | src/main/java/com/kt/terraform/service/TerraformService.java:462-484 | every other inherited variable is kept as it was, and none is added |
| Execution.ConfigureForCli | src/main/java/com/kt/terraform/service/TerraformService.java:368-372 | the CLI-authentication puts on the process environment |
| Execution.ConfigureForServicePrincipal | src/main/java/com/kt/terraform/service/TerraformService.java:373-378 | the service-principal puts, a missing credential making `put` throw |
| Execution.ConfigureForSession | src/main/java/com/kt/terraform/service/TerraformService.java:367-378 | the session-mode environment by authentication kind, or the refusal it raises |
| Execution.ServicePrincipalEnvAccepts | src/main/java/com/kt/terraform/service/TerraformService.java:374-377 | the service-principal environment is accepted exactly when the three credentials are set without NUL, and then only the subscription changes |
| Execution.CliEnvSettings | src/main/java/com/kt/terraform/service/TerraformService.java:369-371 | with CLI authentication only the three CLI settings change |
| Execution.SignaturesAreOneLine | src/main/java/com/kt/terraform/service/TerraformService.java:565-572 | none of the eight signatures is empty or holds a newline |
| Execution.ScanApplyOutput | src/main/java/com/kt/terraform/service/TerraformService.java:555-576 | the buffer keeps every line with a newline, and the flag is raised exactly when some line holds a signature |
| Execution.ScanMatchesJoinedOutput | src/main/java/com/kt/terraform/service/TerraformService.java:558-576 | scanning line by line finds a signature exactly when the joined output holds one |
| Execution.CodeReadsBack | src/main/java/com/kt/terraform/service/TerraformService.java:505-509 | an exit code appended to a prefix reads back: a minus sign for a negative code, then the digits of its magnitude |
| Execution.FailureNamesExitCode | src/main/java/com/kt/terraform/service/TerraformService.java:505-509 | a failed `init` or `apply` message is its prefix, a minus sign when the code is negative, then digits that read back as the code's magnitude |
| Execution.ApplyEnvAccepted | src/main/java/com/kt/terraform/service/TerraformService.java:484 | the apply environment is accepted whenever the init one was |
| Execution.ExecuteTerraformWithToken | src/main/java/com/kt/terraform/service/TerraformService.java:429-593 | the outcome and the processes started are those of the token-mode run |
| Execution.ApplyWithToken | src/main/java/com/kt/terraform/service/TerraformService.java:511-593 | the apply stage starts `terraform apply` under the token environment and classifies its result, or stops with the environment error |
| Execution.ReadOutputs | src/main/java/com/kt/terraform/service/TerraformService.java:598-673 | the output stage starts `terraform output -json` under the inherited environment and returns the settings read from each output's `value` field, or the failure |
| Execution.ExecuteTerraform | src/main/java/com/kt/terraform/service/TerraformService.java:350-427 | the outcome and the processes started are those of the session-mode run, whose settings are read from each output's `value` field |
| Execution.TokenRunStages | src/main/java/com/kt/terraform/service/TerraformService.java:433-509 | no process without a token; `init` first; `apply` only after `init` exits 0; a failed `init` ends the run with its code |
| Execution.TokenRunEnvironments | src/main/java/com/kt/terraform/service/TerraformService.java:462-539 | every process gets the token and its own log path, no credentials and no CLI directory, and all other inherited variables unchanged |
| Execution.TokenEnvShape | src/main/java/com/kt/terraform/service/TerraformService.java:462-484 | an accepted token environment has no credentials and no CLI directory, carries the token and log path, and keeps every other inherited variable |
| Execution.TokenApplyClassified | src/main/java/com/kt/terraform/service/TerraformService.java:578-593 | exit 0 is success whatever the output; a non-zero exit is an access rejection exactly when the output holds a signature, and otherwise names the code |
| Execution.SessionRunStages | src/main/java/com/kt/terraform/service/TerraformService.java:350-426 | `init`, `apply` and `output` run in this order, each after a 0 exit of the one before; `output` gets the server's environment |
| Execution.SessionRunResult | src/main/java/com/kt/terraform/service/TerraformService.java:598-638 | session mode never reports an access rejection; a success is the reconciliation of the parsed outputs of an `output` that exited 0 |
| AuthService.CliResult | src/main/java/com/kt/terraform/service/AuthService.java:84-113 | the helper fails only with an `IOException` or an `InterruptedException` |
| AuthService.ExecuteAzCliCommand | src/main/java/com/kt/terraform/service/AuthService.java:84-113 | both stream loops and the exit-code check give the helper's specified result |
| AuthService.CliResultShape | src/main/java/com/kt/terraform/service/AuthService.java:106-112 | a non-zero exit is an `IOException` of the prefix and the newline-terminated error lines; a success is exit 0 with trimmed text |
| AuthService.BlockedMessageOpensWithMarker | src/main/java/com/kt/terraform/service/AuthService.java:53 | the refusal message opens with "조건부 액세스 정책" |
| AuthService.NoTokenMessageLacks | src/main/java/com/kt/terraform/service/AuthService.java:70 | the failed-recovery message lacks `D`, `C` and `조` |
| AuthService.BlankTokenMessageLacks | src/main/java/com/kt/terraform/service/AuthService.java:75 | the blank-token message lacks `D`, `o` and `조` |
| AuthService.TryScoped | src/main/java/com/kt/terraform/service/AuthService.java:28-36 | the graph request and then the management request, stopping at the first failure |
| AuthService.TryRecovery | src/main/java/com/kt/terraform/service/AuthService.java:60-67 | the clear and then the unscoped request, stopping at the first failure |
| AuthService.GetAzureAccessToken | src/main/java/com/kt/terraform/service/AuthService.java:25-79 | the result and the commands made are those of the token protocol |
| AuthService.HappyPath | src/main/java/com/kt/terraform/service/AuthService.java:31-36 | when both scoped requests succeed with a non-blank token, the management token is returned and no recovery is made |
| AuthService.RefusalStops | src/main/java/com/kt/terraform/service/AuthService.java:40-57 | a refusal ends the attempt with the remediation error and makes no further CLI call |
| AuthService.RecoveryPass | src/main/java/com/kt/terraform/service/AuthService.java:60-76 | any other failure gets exactly one clear and, only if it succeeds, one unscoped request; either failing is the "cannot obtain" error |
| AuthService.OrderedJoin | src/main/java/com/kt/terraform/service/AuthService.java:31-67 | joining two ordered runs of commands keeps the protocol order |
| AuthService.IssuedCommands | src/main/java/com/kt/terraform/service/AuthService.java:28-72 | the recovery commands follow the scoped ones exactly when a scoped failure is not a refusal |
| AuthService.CommandOrder | src/main/java/com/kt/terraform/service/AuthService.java:31-67 | one to four CLI commands, none twice, in the order graph, management, clear, unscoped; the unscoped request only after a clear |
| AuthService.ReturnedTokenNotBlank | src/main/java/com/kt/terraform/service/AuthService.java:74-78 | a returned token is never blank, and is already trimmed |
| AuthService.OnlyIOExceptions | src/main/java/com/kt/terraform/service/AuthService.java:53-75 | the service throws only `IOException`s |
| AuthController.ReplyClassified | src/main/java/com/kt/terraform/controller/AuthController.java:32-85 | 200 exactly for a token; 401 exactly for an `IOException` naming conditional access, with its code and text; every 500 has the internal-error code and the prefix of its exception kind |
| AuthController.NullMessageIsServerError | src/main/java/com/kt/terraform/controller/AuthController.java:40-62 | an `IOException` without a message is a 500 whose message ends in `null` |
| AuthController.RefusalNamesConditionalAccess | src/main/java/com/kt/terraform/controller/AuthController.java:40-43 | the service's refusal message names conditional access |
| AuthController.NoTokenMessagesNameNothing | src/main/java/com/kt/terraform/controller/AuthController.java:40-43 | neither "cannot obtain" message names conditional access |
| AuthController.FailureReplies | src/main/java/com/kt/terraform/controller/AuthController.java:36-64 | the refusal is a 401 with the fixed text; the two "cannot obtain" errors are 500 I/O-error replies |
| AuthController.EndpointReplies | src/main/java/com/kt/terraform/controller/AuthController.java:32-85 | the endpoint gives 200 exactly for a non-blank token, 401 exactly for the refusal, and the I/O-error 500s otherwise |

## Left out

- Filesystem effects are not modelled: creating the workspace, writing `terraform.tfvars`, reading it back for the image patch, and deleting `.terraform` (TerraformService.java:441-454). The template copy works on maps from names to contents.
- The YAML tree and the `terraform output -json` text are not parsed or dumped. The tree is a datatype. The JSON reading is a parameter that gives `None` for text that is not a JSON object; a JSON `null` document is folded into that case.
- Process spawning, concurrent draining of the streams, `redirectErrorStream` and `waitFor` are not modelled. Each process is an oracle giving its exit code and lines. In session mode the model does not record the lines of `init` and `apply`, which are only logged.
- Logging, console output and the masked printing of the environment are left out.
- The `Files.exists` check on the CLI session path only logs, and is left out.
- `System.currentTimeMillis()` readings are the `Clock` parameter. `System.getenv` is a map parameter.
- `Path.resolve` is taken as `dir + "/" + name`. `Paths.get(cliPath).toString()` is taken as the configured text.
- `HashMap` iteration order is not modelled; the reconciled settings are maps.
- The thread re-interrupt at AuthController.java:67 is left out.
- The response wrappers (`ResponseTemplate`, `ErrorResponse`, `GlobalErrorCode`) are not part of this model. A reply keeps the status, the code (the enum constant's name) and the message.
- `createInfrastructure` and its pipelines, `DockerImageService`, `TerraformController` and the configuration classes are not part of this model.
- Execution.FailureMessage: gives `None` where the message is the runtime library's own (a refused environment value, unparsable JSON), because those texts are not in the source.
- ImagePatch.PatchSplices: states that the filled line occurs at the spliced index, not that it occurs only once, because an image name may itself contain that text.
- ImagePatch.PatchClearsPlaceholder: also requires an image free of `=`. An image such as `container_image = ` followed by a stray `"` in the text recreates the empty line.
- Execution.ReadOutputs: returns the settings read from each output's `value` field (`Reconcile.ReconcileOutputs`, the corrected reading under Findings), not the maps of whole output objects that TerraformService.java:643-673 builds as written; `Reconcile.ReconcileAsWritten` models those.
- Execution.ExecuteTerraform: the session run's settings are likewise the corrected value-field reading, through `Execution.SessionOutputs`.
- Execution.SessionOutputs: reconciles with the corrected value-field reading, as above.
- VarsLayout.RewriteScope: the configuration is a tree of values, so YAML anchors and aliases are not modelled and the result holds for an alias-free document. With `backup: *d` aliasing the `data` map, the puts at TerraformService.java:317 and 335-337 would change `backup` as well.
- VarsLayout.MongoStepKeeps: holds for an alias-free document, for the same reason.
- VarsLayout.DatabaseStepKeeps: holds for an alias-free document, for the same reason.
- TfvarsImage.SynthesizedOnce, TfvarsImage.PatchSynthesized, TfvarsImage.PatchedSynthesizedCleared: assume that the location, the resource group, the environment values and the connection values do not contain `container_image = "`. The source does not check this, and a value that contains it can add a second empty image line.
- Text.Replace: requires a non-empty target. Every call in the source uses a fixed non-empty target.

## Findings

| source | as written | input that shows it | evidently intended | confidence | as-written member | corrected member |
|---|---|---|---|---|---|---|
| src/main/java/com/kt/terraform/service/TerraformService.java:667 | the URL concatenates the whole object that `terraform output -json` gives for each output, so it prints as `{sensitive=..., type=..., value=...}` | outputs `mysql_server_fqdn` = `{"sensitive": false, "type": "string", "value": "db.example"}` and `mysql_database_name` likewise; the URL starts `jdbc:mysql://{` | read each output's `value` field, giving `jdbc:mysql://db.example/<database>` | not executed | Reconcile.AsWrittenUrlEmbedsObjects | Reconcile.CorrectedDatasource |

The same object-for-value reading affects the user, password, Redis, Kafka and MongoDB settings (TerraformService.java:643-673). The session run uses the corrected reading (`Reconcile.ReconcileOutputs`).
