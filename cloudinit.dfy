/** Cloud-init template rendering (`render_cloudinit_data`) on the template as
    a decoded document: the user substitution both profile families perform,
    and the two `write_files` entries the Alpine profile appends. */
module CloudInit {
  import opened Wrappers
  import opened Values

  /** `d[key]`: a mapping without the key raises `KeyError`; a list, string,
      number, boolean or null cannot be indexed by a string. */
  function Field(d: Json, key: string): (r: Result<Json, PyError>)
    ensures r.Ok? <==> d.JObj? && key in d.fields
    ensures r.Ok? ==> r.value == d.fields[key]
    ensures r.Err? ==> r.error == if d.JObj? then KeyError else TypeError
  {
    if d.JObj? then
      if key in d.fields then Ok(d.fields[key]) else Err(KeyError)
    else Err(TypeError)
  }

  /** `v[i]` with a non-negative integer: a list or a string past its end
      raises `IndexError`; a mapping (its keys are strings) has no key `i`. */
  function Item(v: Json, i: nat): (r: Result<Json, PyError>)
    ensures r.Ok? <==> (v.JArr? && i < |v.items|) || (v.JStr? && i < |v.s|)
    ensures v.JArr? && i < |v.items| ==> r == Ok(v.items[i])
    ensures v.JStr? && i < |v.s| ==> r == Ok(JStr([v.s[i]]))
    ensures v.JObj? ==> r == Err(KeyError)
  {
    match v
    case JArr(items) => if i < |items| then Ok(items[i]) else Err(IndexError)
    case JStr(s) => if i < |s| then Ok(JStr([s[i]])) else Err(IndexError)
    case JObj(_) => Err(KeyError)
    case _ => Err(TypeError)
  }

  /** `v[i] = x` on a list; assignment past the end raises `IndexError`. */
  function SetItem(v: Json, i: nat, x: Json): (r: Result<Json, PyError>)
    ensures r.Ok? <==> v.JArr? && i < |v.items|
    ensures r.Ok? ==> r.value == JArr(v.items[i := x])
    ensures v.JArr? && i >= |v.items| ==> r == Err(IndexError)
  {
    if v.JArr? then
      if i < |v.items| then Ok(JArr(v.items[i := x])) else Err(IndexError)
    else Err(TypeError)
  }

  /** `d[key] = x` on a mapping; no other value takes a string subscript. */
  function SetField(d: Json, key: string, x: Json): (r: Result<Json, PyError>)
    ensures r.Ok? <==> d.JObj?
    ensures r.Ok? ==> r.value == JObj(d.fields[key := x])
    ensures r.Err? ==> r.error == TypeError
  {
    if d.JObj? then Ok(JObj(d.fields[key := x])) else Err(TypeError)
  }

  /** The shape the substitution needs: a `users` list with a second entry
      that is a mapping holding a non-empty `ssh-authorized-keys` list. */
  predicate HasUserSlot(t: Json) {
    && t.JObj? && "users" in t.fields
    && t.fields["users"].JArr? && |t.fields["users"].items| >= 2
    && t.fields["users"].items[1].JObj?
    && "ssh-authorized-keys" in t.fields["users"].items[1].fields
    && t.fields["users"].items[1].fields["ssh-authorized-keys"].JArr?
    && |t.fields["users"].items[1].fields["ssh-authorized-keys"].items| >= 1
  }

  /** `template['users'][1]['gecos'] = username`, then `['name'] = username`,
      then `['ssh-authorized-keys'][0] = ssh_key`, each step on the document
      the previous one changed in place. It succeeds exactly on templates of
      the needed shape, and then sets the second user's `gecos` and `name` to
      the user name and the first authorized key to the key, and changes
      nothing else: every other top-level entry, every other user, every
      other field of that user and every other key are kept. */
  function SetUser(t: Json, username: string, key: string): (r: Result<Json, PyError>)
    ensures r.Ok? <==> HasUserSlot(t)
    ensures t.JObj? && "users" !in t.fields ==> r == Err(KeyError)
    ensures r.Ok? ==>
      var users := t.fields["users"].items;
      var user := users[1].fields;
      var keys := user["ssh-authorized-keys"].items;
      && r.value.JObj? && r.value.fields.Keys == t.fields.Keys
      && (forall k | k in t.fields && k != "users" :: r.value.fields[k] == t.fields[k])
      && r.value.fields["users"].JArr?
      && |r.value.fields["users"].items| == |users|
      && (forall i | 0 <= i < |users| && i != 1 :: r.value.fields["users"].items[i] == users[i])
      && r.value.fields["users"].items[1].JObj?
      && var user' := r.value.fields["users"].items[1].fields;
      && user'.Keys == user.Keys + {"gecos", "name"}
      && user'["gecos"] == JStr(username) && user'["name"] == JStr(username)
      && (forall k | k in user && k !in {"gecos", "name", "ssh-authorized-keys"} :: user'[k] == user[k])
      && user'["ssh-authorized-keys"] == JArr(keys[0 := JStr(key)])
  {
    var users :- Field(t, "users");
    var user :- Item(users, 1);
    var user1 :- SetField(user, "gecos", JStr(username));
    var user2 := JObj(user1.fields["name" := JStr(username)]);
    var keys :- Field(user2, "ssh-authorized-keys");
    var keys1 :- SetItem(keys, 0, JStr(key));
    var user3 := JObj(user2.fields["ssh-authorized-keys" := keys1]);
    if users.JArr? then Ok(JObj(t.fields["users" := JArr(users.items[1 := user3])]))
    else Err(TypeError)
  }

  /** A `write_files` entry: a file's content and the path it is written to. */
  function WriteFile(content: string, path: string): Json {
    JObj(map["content" := JStr(content), "path" := JStr(path)])
  }

  const InstallBootPath: string := "/usr/sbin/install_boot.sh"
  const ServicePath: string := "/usr/sbin/macos-virt-service.py"

  /** The Alpine addition: take `write_files` (an empty list when absent),
      append the boot installer and the guest agent, and store the list back;
      a value without `append` raises `AttributeError`. Every entry already in
      `write_files` is kept, in order, followed by exactly the installer and
      then the agent, and no other entry of the document changes. */
  function AppendServiceFiles(t: Json, installBoot: string, service: string): (r: Result<Json, PyError>)
    requires t.JObj?
    ensures r.Ok? <==> "write_files" !in t.fields || t.fields["write_files"].JArr?
    ensures r.Err? ==> r.error == AttributeError
    ensures r.Ok? ==>
      var before := if "write_files" in t.fields then t.fields["write_files"].items else [];
      && r.value.JObj? && r.value.fields.Keys == t.fields.Keys + {"write_files"}
      && (forall k | k in t.fields && k != "write_files" :: r.value.fields[k] == t.fields[k])
      && r.value.fields["write_files"].JArr?
      && |r.value.fields["write_files"].items| == |before| + 2
      && r.value.fields["write_files"].items[..|before|] == before
      && r.value.fields["write_files"].items[|before|] == WriteFile(installBoot, InstallBootPath)
      && r.value.fields["write_files"].items[|before| + 1] == WriteFile(service, ServicePath)
  {
    var files := if "write_files" in t.fields then t.fields["write_files"] else JArr([]);
    if files.JArr? then
      Ok(JObj(t.fields["write_files" := JArr(files.items + [WriteFile(installBoot, InstallBootPath), WriteFile(service, ServicePath)])]))
    else Err(AttributeError)
  }
}
