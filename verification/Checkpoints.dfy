// Unit results on disk, shared by the resumable runners.
module Checkpoints {
  import opened Models

  /** The files of one checkpoint directory; each write replaces one file as a whole. */
  class CheckpointFiles<F(==), K(==), V> {
    var manifest: Option<F>
    var units: map<K, V>
  }

  /** The unit results of a directory, opened for one fingerprint of the inputs. */
  class UnitCheckpoint<F(==), K(==), V> {
    const root: CheckpointFiles<F, K, V>

    constructor (root: CheckpointFiles<F, K, V>)
      ensures this.root == root
    {
      this.root := root;
    }

    /** Refuses a directory whose manifest names other inputs; writes the manifest of a new one. */
    static method Open(root: CheckpointFiles<F, K, V>, fingerprint: F)
      returns (checkpoint: Option<UnitCheckpoint<F, K, V>>)
      modifies root`manifest
      ensures checkpoint.None? <==> old(root.manifest.Some?) && old(root.manifest) != Some(fingerprint)
      ensures checkpoint.None? ==> root.manifest == old(root.manifest)
      ensures checkpoint.Some? ==> root.manifest == Some(fingerprint) && checkpoint.value.root == root
    {
      if root.manifest.Some? {
        if root.manifest.value != fingerprint {
          return None;
        }
      } else {
        root.manifest := Some(fingerprint);
      }
      var handle := new UnitCheckpoint(root);
      return Some(handle);
    }

    method Get(key: K) returns (result: Option<V>)
      ensures result == if key in root.units then Some(root.units[key]) else None
    {
      result := if key in root.units then Some(root.units[key]) else None;
    }

    method Put(key: K, result: V)
      modifies root`units
      ensures root.units == old(root.units)[key := result]
    {
      root.units := root.units[key := result];
    }
  }
}
