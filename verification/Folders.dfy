/** Where the files of a sensor and a day are written, and where a query looks for them. */
module Folders {
  import opened BigEndian
  import opened Routing
  import opened FrameDecoder
  import opened FileNames

  // DataTypeMap, the writer's names of the file types; a missing type reads as the empty string.
  function TypeFolder(kind: string): string {
    if kind == "Arc" then "TypeArc" else ""
  }

  // Where PreWriteToFileCache has a volume written.
  function WriteFolder(dataPath: string, sensorID: string, day: string, kind: string): string {
    dataPath + "/" + sensorID + "/" + day + "/" + TypeFolder(kind)
  }

  // Where a query looks, in a sensor's directory.
  function FolderOf(sensorFolder: string, day: string, filetype: string): string {
    sensorFolder + "/" + day + "/" + filetype
  }

  // A sensor's name, in hexadecimal.
  function SensorText(id: nat): string {
    Hex(Digits(id, 6))
  }

  /** The name that a decoded frame carries is that of its numeric id. */
  lemma SensorTextOfId(id: seq<Byte>)
    requires |id| == 6
    ensures SensorText(ByteToUInt64(id)) == Hex(id)
  {
    IdIsBigEndian(id);
    DigitsOfValue(id);
  }

  /** A query never looks where volumes are written, whatever the sensor and the day: the only type it accepts is
      Arc, and the writer's folder of that type is TypeArc. */
  lemma QueriesMissWrites(dataPath: string, sensorID: string, day: string, sensorFolder: string, day': string)
    ensures FolderOf(sensorFolder, day', "Arc") != WriteFolder(dataPath, sensorID, day, "Arc")
  {
    AfterDirectory(sensorFolder + "/" + day', "Arc");
    AfterDirectory(dataPath + "/" + sensorID + "/" + day, "TypeArc");
  }

  /** The components of the two folders behind the data path: the sensor, the day and the type. */
  lemma FolderComponents(dataPath: string, sensorID: string, day: string, filetype: string)
    requires Plain(sensorID, '/') && Plain(day, '/') && Plain(filetype, '/')
    ensures Split(FolderOf(dataPath + "/" + sensorID, day, filetype), '/')
            == Split(dataPath, '/') + [sensorID, day, filetype]
    ensures Split(WriteFolder(dataPath, sensorID, day, filetype), '/')
            == Split(dataPath, '/') + [sensorID, day, if filetype == "Arc" then "TypeArc" else ""]
  {
    ThreeComponents(dataPath, sensorID, day, filetype);
    ThreeComponents(dataPath, sensorID, day, TypeFolder(filetype));
  }

  lemma ThreeComponents(path: string, a: string, b: string, c: string)
    requires Plain(a, '/') && Plain(b, '/') && Plain(c, '/')
    ensures Split(path + "/" + a + "/" + b + "/" + c, '/') == Split(path, '/') + [a, b, c]
  {
    OneComponent(path, a);
    OneComponent(path + "/" + a, b);
    OneComponent(path + "/" + a + "/" + b, c);
    assert Split(path, '/') + [a] + [b] + [c] == Split(path, '/') + [a, b, c];
  }

  lemma {:induction false} OneComponent(path: string, name: string)
    requires Plain(name, '/')
    ensures Split(path + "/" + name, '/') == Split(path, '/') + [name]
  {
    var whole := path + "/" + name;
    if path == "" {
      SplitPlain(name, '/');
      assert whole[1..] == name;
    } else {
      OneComponent(path[1..], name);
      assert whole[1..] == path[1..] + "/" + name;
    }
  }
}
