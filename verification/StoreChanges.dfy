/** The few ways in which a step changes the stores, and why each keeps the store invariant and the guarantee. */
module StoreChanges {
  import opened Base
  import opened Paths
  import opened Acl
  import opened Admission
  import opened SignedUrls
  import opened Protocol
  import opened Invariant

  /** The step leaves alone the stores the invariant speaks of. */
  ghost predicate SameStores(w: World, w': World) {
    && w'.now == w.now && w'.config == w.config && w'.quota == w.quota && w'.media == w.media
    && w'.objects == w.objects && w'.dedup == w.dedup && w'.issued == w.issued
  }

  lemma SameStoresKeep(w: World, w': World)
    requires StoreInv(w) && SameStores(w, w') && CacheHasRows(w')
    ensures StoreInv(w')
  {
    hide WellFormed, ExpiryBounded, ObjectIdOf;
    assert RowsOk(w') by {
      hide Admissible, Dated, BlobPath, ThumbPath, IsUuid;
      forall id | id in w'.media ensures RowShape(w', id, w'.media[id]) && Backed(w', id, w'.media[id]) {
        assert RowShape(w, id, w.media[id]) && Backed(w, id, w.media[id]);
      }
    }
    assert DedupOk(w') by {
      forall key | key in w'.dedup ensures Matches(w', w'.dedup[key], key) {
        assert Matches(w, w.dedup[key], key);
      }
    }
  }

  lemma SameStoresGuarantee(w: World, w': World, rid: ReqId)
    requires SameStores(w, w')
    ensures Guarantee(w, w', rid)
  {}

  // The invariant speaks of the quota table only through which users have a row.
  lemma MoreQuotaRows(w: World, w': World)
    requires StoreInv(w)
    requires w' == w.(quota := w'.quota, log := w'.log, quotaCache := w'.quotaCache, board := w'.board)
    requires w.quota.Keys <= w'.quota.Keys && CacheHasRows(w')
    ensures StoreInv(w')
  {
    hide WellFormed, ExpiryBounded, ObjectIdOf;
    assert RowsOk(w') by {
      hide Admissible, Dated, BlobPath, ThumbPath, IsUuid;
      forall id | id in w'.media ensures RowShape(w', id, w'.media[id]) && Backed(w', id, w'.media[id]) {
        assert RowShape(w, id, w.media[id]) && Backed(w, id, w.media[id]);
      }
    }
    assert DedupOk(w') by {
      forall key | key in w'.dedup ensures Matches(w', w'.dedup[key], key) {
        assert Matches(w, w.dedup[key], key);
      }
    }
  }

  lemma QuotaGuarantee(w: World, w': World, rid: ReqId)
    requires w' == w.(quota := w'.quota, log := w'.log, quotaCache := w'.quotaCache, board := w'.board)
    requires w.quota.Keys <= w'.quota.Keys
    ensures Guarantee(w, w', rid)
  {}

  /** Row `id` is rewritten: its list, expiry, activity or bookkeeping change, its fixed columns do not. */
  ghost predicate Rewrites(w: World, w': World, id: MediaId, row: Media) {
    && id in w.media && w' == w.(media := w.media[id := row])
    && SameColumns(w.media[id], row)
    && (row.isActive ==> w.media[id].isActive && row.history.released == w.media[id].history.released)
  }

  lemma RowsRewritten(w: World, w': World, id: MediaId, row: Media)
    requires RowsOk(w) && DedupOk(w) && Rewrites(w, w', id, row)
    ensures RowsOk(w') && DedupOk(w')
  {
    hide Admissible, Dated, BlobPath, ThumbPath, IsUuid;
    forall i | i in w'.media ensures RowShape(w', i, w'.media[i]) && Backed(w', i, w'.media[i]) {
      assert RowShape(w, i, w.media[i]) && Backed(w, i, w.media[i]);
    }
    forall key | key in w'.dedup ensures Matches(w', w'.dedup[key], key) {
      assert Matches(w, w.dedup[key], key);
    }
  }

  lemma RowRewritten(w: World, w': World, id: MediaId, row: Media)
    requires StoreInv(w) && Rewrites(w, w', id, row)
    requires WellFormed(Listed(row.sharedWith), row.ownerId)
    requires ExpiryBounded(row.signedUrlExpiresAt, w.now, w.config.signedUrlExpirySeconds)
    ensures StoreInv(w')
  {
    RowsRewritten(w, w', id, row);
    hide WellFormed, ExpiryBounded, ObjectIdOf, RowsOk, DedupOk;
  }

  lemma RewriteGuarantee(w: World, w': World, rid: ReqId, id: MediaId, row: Media)
    requires Rewrites(w, w', id, row)
    requires row.history.recorded != w.media[id].history.recorded ==> id in w.issued && w.issued[id].rid == rid
    requires row.history.deletedBy != w.media[id].history.deletedBy ==> w.media[id].isActive
    requires row.history.released != w.media[id].history.released ==> w.media[id].history.deletedBy == Some(rid)
    ensures Guarantee(w, w', rid)
  {}

  /** Only objects of `id` change, an id without a row, generated by request `rid`. */
  ghost predicate TouchesObjectsOf(w: World, w': World, rid: ReqId, id: MediaId) {
    && w' == w.(objects := w'.objects, issued := w'.issued)
    && id !in w.media && id in w'.issued && w'.issued[id].rid == rid && IssuedGrows(w, w')
    && (forall i :: i in w'.issued ==> i in w.issued || i == id)
    && (forall p :: ObjectIdOf(p) != id ==>
          (p in w.objects <==> p in w'.objects) && (p in w.objects ==> w'.objects[p] == w.objects[p]))
  }

  lemma ObjectsTouched(w: World, w': World, rid: ReqId, id: MediaId)
    requires StoreInv(w) && TouchesObjectsOf(w, w', rid, id)
    ensures StoreInv(w')
  {
    hide WellFormed, ExpiryBounded, ObjectIdOf;
    assert RowsOk(w') by {
      forall i | i in w'.media ensures RowShape(w', i, w'.media[i]) && Backed(w', i, w'.media[i]) {
        var row := w.media[i];
        assert RowShape(w, i, row) && Backed(w, i, row);
        PathIds(row.context, row.ownerId, i);
        hide Admissible, Dated, BlobPath, ThumbPath, IsUuid;
      }
    }
    assert DedupOk(w') by {
      forall key | key in w'.dedup ensures Matches(w', w'.dedup[key], key) {
        assert Matches(w, w.dedup[key], key);
      }
    }
  }

  lemma TouchGuarantee(w: World, w': World, rid: ReqId, id: MediaId)
    requires TouchesObjectsOf(w, w', rid, id) && (id in w.issued ==> w.issued[id].rid == rid)
    ensures Guarantee(w, w', rid)
  {
    hide ObjectIdOf;
  }

  lemma RowAdded(w: World, w': World, id: MediaId, row: Media)
    requires StoreInv(w) && id !in w.media && w' == w.(media := w.media[id := row])
    requires RowShape(w', id, row) && Backed(w', id, row)
    requires WellFormed(Listed(row.sharedWith), row.ownerId)
    requires ExpiryBounded(row.signedUrlExpiresAt, w.now, w.config.signedUrlExpirySeconds)
    ensures StoreInv(w')
  {
    hide WellFormed, ExpiryBounded, ObjectIdOf, Admissible, Dated, BlobPath, ThumbPath, IsUuid;
    assert RowsOk(w') by {
      forall i | i in w'.media ensures RowShape(w', i, w'.media[i]) && Backed(w', i, w'.media[i]) {
        if i != id {
          assert RowShape(w, i, w.media[i]) && Backed(w, i, w.media[i]);
        }
      }
    }
    assert DedupOk(w') by {
      forall key | key in w'.dedup ensures Matches(w', w'.dedup[key], key) {
        assert Matches(w, w.dedup[key], key);
      }
    }
  }

  lemma RowAddedGuarantee(w: World, w': World, rid: ReqId, id: MediaId, row: Media)
    requires id !in w.media && w' == w.(media := w.media[id := row])
    requires id in w.issued && w.issued[id].rid == rid
    ensures Guarantee(w, w', rid)
  {
    hide ObjectIdOf;
  }

  lemma DedupAdded(w: World, w': World, key: DedupKey, id: MediaId)
    requires StoreInv(w) && w' == w.(dedup := w.dedup[key := id]) && Matches(w, id, key)
    ensures StoreInv(w')
  {
    hide WellFormed, ExpiryBounded, ObjectIdOf, Admissible, Dated, BlobPath, ThumbPath, IsUuid;
    assert RowsOk(w') by {
      forall i | i in w'.media ensures RowShape(w', i, w'.media[i]) && Backed(w', i, w'.media[i]) {
        assert RowShape(w, i, w.media[i]) && Backed(w, i, w.media[i]);
      }
    }
    assert DedupOk(w') by {
      forall k | k in w'.dedup ensures Matches(w', w'.dedup[k], k) {
        if k != key {
          assert Matches(w, w.dedup[k], k);
        }
      }
    }
  }

  /** Only objects of the inactive row `id` disappear. */
  ghost predicate RemovesObjectsOf(w: World, w': World, id: MediaId) {
    && w' == w.(objects := w'.objects) && id in w.media && !w.media[id].isActive
    && (forall p :: p in w'.objects ==> p in w.objects && w'.objects[p] == w.objects[p])
    && (forall p :: p in w.objects && ObjectIdOf(p) != id ==> p in w'.objects)
  }

  lemma ObjectsRemoved(w: World, w': World, id: MediaId)
    requires StoreInv(w) && RemovesObjectsOf(w, w', id)
    ensures StoreInv(w')
  {
    hide WellFormed, ExpiryBounded, ObjectIdOf;
    assert RowsOk(w') by {
      forall i | i in w'.media ensures RowShape(w', i, w'.media[i]) && Backed(w', i, w'.media[i]) {
        var row := w.media[i];
        assert RowShape(w, i, row) && Backed(w, i, row);
        PathIds(row.context, row.ownerId, i);
        hide Admissible, Dated, BlobPath, ThumbPath, IsUuid;
      }
    }
    assert DedupOk(w') by {
      forall key | key in w'.dedup ensures Matches(w', w'.dedup[key], key) {
        assert Matches(w, w.dedup[key], key);
      }
    }
  }

  lemma RemovalGuarantee(w: World, w': World, rid: ReqId, id: MediaId)
    requires RemovesObjectsOf(w, w', id)
    ensures Guarantee(w, w', rid)
  {
    hide ObjectIdOf;
  }
}
