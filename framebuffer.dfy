/**
 * lib/vulkan/src/Framebuffer.cc: a framebuffer collects its attachments slot by slot,
 * then creates the Vulkan object from their image views. The images and views it points
 * at are identified by value; a null pointer left by growing the vectors is `None`.
 */
module Framebuffers {
  import opened VenomError

  /** A Vulkan handle; 0 is `VK_NULL_HANDLE`. */
  type Handle = nat
  const NullHandle: Handle := 0

  datatype Image = Image(id: nat)
  datatype ImageView = ImageView(vkImageView: Handle)

  /** `std::vector::resize` growing with null pointers, or cutting. */
  function Resize<T>(s: seq<Option<T>>, n: nat): (r: seq<Option<T>>)
    ensures |r| == n
    ensures forall k | 0 <= k < n && k < |s| :: r[k] == s[k]
    ensures forall k | |s| <= k < n :: r[k] == None
  {
    if n <= |s| then s[..n] else s + seq(n - |s|, _ => None)
  }

  /** The `VkImageView` of every attachment, in slot order. */
  function ViewHandles(views: seq<Option<ImageView>>): (r: seq<Handle>)
    requires forall k | 0 <= k < |views| :: views[k].Some?
    ensures |r| == |views|
    ensures forall k | 0 <= k < |views| :: r[k] == views[k].value.vkImageView
  {
    seq(|views|, k requires 0 <= k < |views| => views[k].value.vkImageView)
  }

  class Framebuffer {
    var framebuffer: Handle
    var renderPass: Handle
    var attachments: seq<Handle>
    var images: seq<Option<Image>>
    var imageViews: seq<Option<ImageView>>

    /** There are as many image slots as image-view slots. */
    ghost predicate Valid()
      reads this
    {
      |images| == |imageViews|
    }

    constructor ()
      ensures Valid()
      ensures framebuffer == NullHandle && renderPass == NullHandle
      ensures attachments == [] && images == [] && imageViews == []
    {
      framebuffer := NullHandle;
      renderPass := NullHandle;
      attachments := [];
      images := [];
      imageViews := [];
    }

    /** `Destroy`: destroys a live framebuffer and forgets it, so a second call does nothing. */
    method Destroy() returns (destroyed: Option<Handle>)
      modifies this`framebuffer
      ensures framebuffer == NullHandle
      ensures destroyed == if old(framebuffer) != NullHandle then Some(old(framebuffer)) else None
    {
      destroyed := None;
      if framebuffer != NullHandle {
        destroyed := Some(framebuffer);
        framebuffer := NullHandle;
      }
    }

    /**
     * `Init`: appends the handle of every stored view to the attachments, which are never
     * cleared, so a second call lists every view twice. A failed creation is
     * `InitializationFailed`.
     */
    method Init(created: Option<Handle>) returns (err: Error)
      requires forall k | 0 <= k < |imageViews| :: imageViews[k].Some?
      modifies this`attachments, this`framebuffer
      ensures attachments == old(attachments) + ViewHandles(imageViews)
      ensures created.None? ==> err == InitializationFailed && framebuffer == old(framebuffer)
      ensures created.Some? ==> err == Success && framebuffer == created.value
    {
      var i := 0;
      while i < |imageViews|
        invariant 0 <= i <= |imageViews|
        invariant attachments == old(attachments) + ViewHandles(imageViews[..i])
        invariant framebuffer == old(framebuffer)
      {
        attachments := attachments + [imageViews[i].value.vkImageView];
        i := i + 1;
        assert ViewHandles(imageViews[..i]) == ViewHandles(imageViews[..i - 1]) + [imageViews[i - 1].value.vkImageView];
      }
      assert imageViews[..i] == imageViews;
      if created.None? {
        return InitializationFailed;
      }
      framebuffer := created.value;
      return Success;
    }

    method SetRenderPass(pass: Handle)
      modifies this`renderPass
      ensures renderPass == pass
    {
      renderPass := pass;
    }

    /**
     * `SetAttachment`: grows both vectors to hold slot `i` when needed, then points slot `i`
     * at the image and its view. Other slots are kept and the vectors never shrink.
     */
    method SetAttachment(i: int, image: Image, view: ImageView)
      requires 0 <= i
      requires Valid()
      modifies this`images, this`imageViews
      ensures Valid()
      ensures |images| == if i < |old(images)| then |old(images)| else i + 1
      ensures images[i] == Some(image) && imageViews[i] == Some(view)
      ensures forall k | 0 <= k < |old(images)| && k != i :: images[k] == old(images)[k] && imageViews[k] == old(imageViews)[k]
      ensures forall k | |old(images)| <= k < |images| && k != i :: images[k] == None && imageViews[k] == None
    {
      if i >= |images| {
        images := Resize(images, i + 1);
        imageViews := Resize(imageViews, i + 1);
      }
      images := images[i := Some(image)];
      imageViews := imageViews[i := Some(view)];
    }
  }
}
