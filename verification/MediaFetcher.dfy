/** The media fetcher on its directories, one call at a time: create, copy, rename, and clean up on the way out. */
module MediaFetcher {
  import opened Wrappers
  import opened FaviconCache

  /** Where a save is interrupted; a copy may stop after any number of bytes. */
  datatype Fault = NoFault | AtChmod | AtCopy(written: nat) | AtClose | AtRename

  /** A response with an accepted image type, or none. */
  datatype Response = Response(ext: string, body: Bytes) | NoImage

  class MediaFetcher {
    var images: Dir
    var favicons: Dir

    constructor ()
      ensures images == map[] && favicons == map[]
    {
      images, favicons := map[], map[];
    }

    /** Either the whole body appears under its final name, or the directory is as it was. */
    method SaveFile(dir: Dir, baseName: string, ext: string, body: Bytes, random: string, fault: Fault)
      returns (r: Option<string>, after: Dir)
      requires IsExt(ext) && Digits(random) && TempName(random, ext) !in dir
      ensures r.Some? <==> fault == NoFault && |body| <= MAX_IMAGE_SIZE
      ensures r.Some? ==> r.value == (if baseName != "" then baseName else random) + ext && after == dir[r.value := body]
      ensures r == None ==> after == dir
    {
      var temp := TempName(random, ext);
      after := dir[temp := []];
      var ok := false;
      var finalName := random + ext;
      if fault != AtChmod {
        var n := if fault.AtCopy? && fault.written < |Readable(body)| then fault.written else |Readable(body)|;
        after := after[temp := body[..n]];
        if !fault.AtCopy? && n <= MAX_IMAGE_SIZE && fault != AtClose {
          if baseName != "" {
            finalName := baseName + ext;
          }
          if fault != AtRename {
            FinalIsNotTemp(if baseName != "" then baseName else random, ext, random, ext);
            assert body[..n] == body;
            after := (after - {temp})[finalName := after[temp]];
            ok := true;
          }
        }
      }
      if !ok {
        after := after - {temp};
        return None, after;
      }
      assert after == dir[finalName := body];
      r := Some(finalName);
    }

    /** A favicon on disk is reused without asking the network: response and fault do not matter then. */
    method FetchFavicon(host: string, response: Response, random: string, fault: Fault) returns (r: Option<string>)
      requires response.Response? ==> IsExt(response.ext) && Digits(random) && TempName(random, response.ext) !in favicons
      modifies this`favicons
      ensures !UsableHost(host) ==> r == None && favicons == old(favicons)
      ensures UsableHost(host) && Stored(old(favicons), host) ==>
                r.Some? && r.value in favicons && Stem(r.value) == host && favicons == old(favicons)
      ensures UsableHost(host) && !Stored(old(favicons), host) ==>
                if response.Response? && fault == NoFault && |response.body| <= MAX_IMAGE_SIZE
                then r == Some(host + response.ext) && favicons == old(favicons)[host + response.ext := response.body]
                else r == None && favicons == old(favicons)
      ensures r.Some? ==> Stored(favicons, host)
    {
      if host == "" || host == "." || host == ".." || exists i :: 0 <= i < |host| && (host[i] == '/' || host[i] == '\\') {
        return None;
      }
      if exists name :: name in favicons && Stem(name) == host {
        var name :| name in favicons && Stem(name) == host;
        return Some(name);
      }
      if response == NoImage {
        return None;
      }
      StemInvertsNaming(host, response.ext);
      var after;
      r, after := SaveFile(favicons, host, response.ext, response.body, random, fault);
      favicons := after;
      assert r.Some? ==> host + response.ext in favicons;
    }

    /** An article image gets the random name. */
    method Fetch(response: Response, random: string, fault: Fault) returns (r: Option<string>)
      requires response.Response? ==> IsExt(response.ext) && Digits(random) && TempName(random, response.ext) !in images
      modifies this`images
      ensures r.Some? <==> response.Response? && fault == NoFault && |response.body| <= MAX_IMAGE_SIZE
      ensures r.Some? ==> r.value == random + response.ext && images == old(images)[r.value := response.body]
      ensures r == None ==> images == old(images)
    {
      if response == NoImage {
        return None;
      }
      var after;
      r, after := SaveFile(images, "", response.ext, response.body, random, fault);
      images := after;
    }
  }
}
