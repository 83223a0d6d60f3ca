/** The directories an upgrade works on: one data volume of one database node.

    A directory is described by the few files the upgrade scripts read
    (PG_VERSION, global/pg_control, global/pg_control.old and the configuration
    files) and by whether everything else in it is the whole database. */
module Volumes {
  import opened Base

  // The five files both conversion scripts carry over.
  datatype File = PostgresqlConf | BaseConf | AutoConf | HbaConf | IdentConf

  const PRESERVE_FILES: seq<File> := [PostgresqlConf, BaseConf, AutoConf, HbaConf, IdentConf]

  // What pg_controldata prints.
  datatype Control = Control(sysid: string, checkpoint: string)

  datatype Dir =
    | Absent
    | Present(
        version: Option<int>,      // PG_VERSION, if it can be read
        control: Option<Control>,  // global/pg_control, if it is there
        controlOld: Option<Control>, // global/pg_control.old, if it is there
        intact: bool,              // the rest is the whole database
        conf: map<File, string>)

  datatype Volume = Volume(
    data: Dir,
    dataNew: Dir,                        // data.new
    done: Dir,                           // data.new.done
    preserve: Option<map<File, string>>) // data.preserve

  const EMPTY: Volume := Volume(Absent, Absent, Absent, None)

  // d is a whole database of major version v with system identifier id.
  predicate IsDatabase(d: Dir, v: int, id: string) {
    && d.Present?
    && d.intact
    && d.version == Some(v)
    && d.control.Some?
    && d.control.value.sysid == id
    && d.controlOld.None?
  }

  // Whatever identity can be read in d is (v, id); an empty directory agrees with anything.
  predicate Agrees(d: Dir, v: int, id: string) {
    d.Present? ==>
      && (d.version.Some? ==> d.version.value == v)
      && (d.control.Some? ==> d.control.value.sysid == id)
      && d.controlOld.None?
  }

  // pg_upgrade --link has taken the database away from d.
  predicate Disabled(d: Dir) {
    d.Present? && d.controlOld.Some?
  }

  // The leader's volume once pg_upgrade has taken the database to data.new, as version `after` with identifier id.
  predicate Converted(x: Volume, before: int, after: int, id: string) {
    && Disabled(x.data)
    && x.data.version == Some(before)
    && x.data.control.None?
    && IsDatabase(x.dataNew, after, id)
  }

  // The scripts' $(cat DIR/PG_VERSION): no value means the command fails.
  function VersionOf(d: Dir): Option<int> {
    if d.Present? then d.version else None
  }

  // The scripts' pg_controldata | sed pipelines: an unreadable control file prints nothing.
  function SysIdOf(d: Dir): string {
    if d.Present? && d.control.Some? then d.control.value.sysid else ""
  }

  function CheckpointOf(d: Dir): string {
    if d.Present? && d.control.Some? then d.control.value.checkpoint else ""
  }

  // The last checkpoint of a database that pg_upgrade has taken away from d, or that is there still.
  function LastCheckpoint(d: Dir): string {
    if Disabled(d) then d.controlOld.value.checkpoint else CheckpointOf(d)
  }

  /** own is the directory of a replica that had caught up with the leader before pg_upgrade took the leader's
      database away from src: both hold the same files, but for what pg_upgrade has changed. */
  predicate CaughtUpWith(own: Dir, src: Dir) {
    && Disabled(src)
    && VersionOf(own).Some? && VersionOf(own) == VersionOf(src)
    && own.control.Some? && own.control.value.checkpoint == LastCheckpoint(src)
  }

  function ConfOf(d: Dir): map<File, string> {
    if d.Present? then d.conf else map[]
  }

  // cp SRC/f DST/f, where the script guards it with [ -f SRC/f ].
  function CopyFile(from: map<File, string>, f: File, to: map<File, string>): map<File, string> {
    if f in from then to[f := from[f]] else to
  }

  // d holds every file of own with own's contents.
  predicate Carries(conf: map<File, string>, own: map<File, string>) {
    forall f :: f in own ==> f in conf && conf[f] == own[f]
  }
}
