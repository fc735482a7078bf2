/** The backup-point tables (src/manifest/BackupPointRepository.ts), with JSON storage as identity. */
module BackupPoints {
  import opened Common
  import opened ManifestTypes

  datatype PointRow = PointRow(manifest: Manifest, status: ManifestStatus, finalisedAt: Option<string>)

  function RowOf(manifest: Manifest): PointRow {
    PointRow(manifest, manifest.status, if |manifest.finalisedAt| > 0 then Some(manifest.finalisedAt) else None)
  }

  function EmptyManifest(id: string, cloudId: string, siteUrl: string, scopeAll: bool, now: string): Manifest {
    Manifest(id, cloudId, siteUrl, now, now, "", scopeAll, InProgress, [], [], map[], [])
  }

  class BackupPointRepository {
    var points: map<string, PointRow>
    var items: seq<ItemEntry>

    constructor ()
      ensures points == map[] && items == []
    {
      points := map[];
      items := [];
    }

    /** Fails, as the insert does, when the primary key is taken. */
    method Create(id: string, cloudId: string, siteUrl: string, scopeAll: bool, now: string) returns (ok: bool)
      modifies this`points
      ensures ok == (id !in old(points))
      ensures points == if ok then old(points)[id := RowOf(EmptyManifest(id, cloudId, siteUrl, scopeAll, now))]
                        else old(points)
    {
      if id in points {
        return false;
      }
      points := points[id := RowOf(EmptyManifest(id, cloudId, siteUrl, scopeAll, now))];
      ok := true;
    }

    /** Updating a row that does not exist changes nothing. */
    method WriteManifest(id: string, manifest: Manifest)
      modifies this`points
      ensures points == if id in old(points) then old(points)[id := RowOf(manifest)] else old(points)
    {
      if id in points {
        points := points[id := RowOf(manifest)];
      }
    }

    method GetById(id: string) returns (manifest: Option<Manifest>)
      ensures manifest == if id in points then Some(points[id].manifest) else None
    {
      manifest := if id in points then Some(points[id].manifest) else None;
    }

    /** Entry ids are random and never collide, so no insert is ignored. */
    method InsertEntry(entry: ItemEntry)
      modifies this`items
      ensures items == old(items) + [entry]
    {
      items := items + [entry];
    }

    function CountEntriesByObjectType(backupPointId: string, objectType: ObjectType, ok: bool): nat
      reads this
    {
      CountItems(items, backupPointId, objectType, ok)
    }
  }
}
